/** What the transactions of a lease's client do, exactly, on rows. */
module PoolClientOutcomes {
  import opened PoolRows
  import opened PoolTerms
  import opened PoolRefresh
  import opened PoolCohortLoops
  import opened PoolClient
  import opened PoolReaping
  import opened PoolRefreshing
  import opened PoolInvariant
  import opened PoolCalm
  import opened PoolRefreshProofs
  import opened PoolClientProofs
  import opened PoolCursor
  import opened PoolFitting
  import opened PoolHeartbeats

  /** The request is made by the owner of the lease. */
  predicate Owned(st: Pool, id: nat, token: string) {
    id in st.leases && st.leases[id].token == token
  }

  /** Only the row of the lease changes. */
  ghost predicate OnlyLease(st: Pool, su: Pool, id: nat, m: Lease) {
    su == st.(leases := st.leases[id := m])
  }

  // ----- a heartbeat -----

  /** The row after a heartbeat that is written: alive for its lifetime from now on. */
  predicate Beaten(l: Lease, m: Lease, cfg: Config, now: int) {
    && Stored(m.heartbeat, m.expires) == Written(now as real, cfg.leaseTtl)
    && m.state == (if l.state.Leased? && l.req.protocol < 2 then Active else l.state)
    && (l.state.Offered? && l.req.protocol >= 2 ==> m.offerExpires == now + cfg.offerAck)
    && m == l.(state := m.state, heartbeat := m.heartbeat, expires := m.expires,
               offerExpires := if l.state.Offered? && l.req.protocol >= 2 then m.offerExpires else l.offerExpires)
  }

  /** A queued lease then gets its turn on the refreshed tables. */
  ghost predicate BeatenAndPlaced(st: Pool, su: Pool, cfg: Config, id: nat, now: int) {
    exists mid: Pool ::
      RefreshRuns(st, mid, now)
      && (if id in Polling(mid, cfg, now) then Turn(mid, su, cfg, id, now) else su == mid)
  }

  lemma BeatenRow(st: Pool, cfg: Config, id: nat, now: int)
    requires id in st.leases
    ensures
      var l := st.leases[id];
      Beaten(l, l.(state := if l.req.protocol < 2 && l.state.Leased? then Active else l.state,
                   heartbeat := now, expires := now + cfg.leaseTtl,
                   offerExpires := if l.req.protocol >= 2 && l.state.Offered? then now + cfg.offerAck else l.offerExpires),
             cfg, now)
  {
  }

  /** A heartbeat of the owner of a live lease is written; with the pool operational, a queued
      lease then has its turn. Any other heartbeat is refused. */
  ghost predicate LeaseBeats(st: Pool, su: Pool, cfg: Config, id: nat, token: string, now: int)
  {
    if Owned(st, id, token) && !LeaseEnded(st.leases[id]) then
      exists m :: Beaten(st.leases[id], m, cfg, now)
        && (if st.leases[id].state.Queued? && cfg.operational
            then BeatenAndPlaced(st.(leases := st.leases[id := m]), su, cfg, id, now)
            else OnlyLease(st, su, id, m))
    else su == st
  }

  lemma HeartbeatOutcome(safe: set<string>, st: Pool, cfg: Config, id: nat, token: string, now: int)
    requires Inv(safe, st)
    ensures LeaseBeats(st, HeartbeatLease(st, cfg, id, token, now), cfg, id, token, now)
  {
    hide Inv, Ebbs, RefreshReservations, PlaceNamed, RefreshRuns, Turn, Polling, Beaten;
    if Owned(st, id, token) && !LeaseEnded(st.leases[id]) {
      var l := st.leases[id];
      var m := l.(state := if l.req.protocol < 2 && l.state.Leased? then Active else l.state,
                  heartbeat := now, expires := now + cfg.leaseTtl,
                  offerExpires := if l.req.protocol >= 2 && l.state.Offered? then now + cfg.offerAck else l.offerExpires);
      BeatenRow(st, cfg, id, now);
      if l.state.Queued? && cfg.operational {
        var beaten := st.(leases := st.leases[id := m]);
        TouchEbbs(safe, cfg.target, st, id, m);
        EbbsInv(safe, cfg.target, st, beaten);
        RefreshOutcome(beaten, now);
        RefreshReservationsEbbs(safe, cfg.target, beaten, now);
        EbbsInv(safe, cfg.target, beaten, RefreshReservations(beaten, now));
        PassOutcome(safe, RefreshReservations(beaten, now), cfg, now);
      }
    }
  }

  // ----- the answer to an offer -----

  /** The reservation behind the offer still backs it. */
  predicate PinStands(st: Pool, id: nat, l: Lease) {
    l.req.pin == 0 ||
    (l.req.pin in st.reservations &&
     var r := st.reservations[l.req.pin];
     && r.state.Consumed? && r.lease == Some(id) && l.session == Some(r.session)
     && r.generation == l.req.pinGeneration && r.profile == l.req.profile
     && (r.family != "" ==> r.family == l.req.family && r.policy == Some(l.req.policy)))
  }

  /** The Desktop is still what was offered: working, open, registered and heard of, in service,
      of the right profile and generation. */
  predicate TargetStands(st: Pool, cfg: Config, l: Lease, now: int) {
    l.session.Some? && l.session.value in st.sessions &&
    var x := st.sessions[l.session.value];
    && Works(x) && !x.isSealed && x.drainAt.None? && InService(st.allocations, x.allocation)
    && x.endpoint != "" && x.process != "" && x.profile == l.req.profile
    && x.heartbeat.Some? && now - cfg.sessionTimeout <= x.heartbeat.value
    && (l.req.pinSession != 0 ==> l.session.value == l.req.pinSession)
    && (l.req.pinGeneration != 0 ==> x.generation == l.req.pinGeneration)
  }

  /** The offer is in its window, and the Desktop has no project left to close. */
  predicate MayStart(st: Pool, l: Lease, now: int) {
    && now < l.offerExpires
    && (l.session.Some? && l.session.value in st.sessions ==>
          && st.sessions[l.session.value].blockedAt.None?
          && forall o :: o in st.leases && st.leases[o].session == l.session ==> !st.leases[o].state.Releasing?)
  }

  /** The lease waits again for its lifetime, and its reservation is claimed again. */
  ghost predicate OfferRevoked(st: Pool, su: Pool, cfg: Config, id: nat, now: int)
    requires id in st.leases
  {
    var l := st.leases[id];
    && su == st.(leases := su.leases, reservations := su.reservations, sessions := su.sessions)
    && su.leases == st.leases[id := l.(state := Queued, session := None, slot := 0, permit := None,
                                       heartbeat := now, expires := now + cfg.leaseTtl)]
    && su.reservations.Keys == st.reservations.Keys && su.sessions.Keys == st.sessions.Keys
    && (forall r :: r in st.reservations ==>
          su.reservations[r] == if st.reservations[r].state.Consumed? && st.reservations[r].lease == Some(id)
                                then st.reservations[r].(state := Claimed) else st.reservations[r])
    && (forall s :: s in st.sessions ==>
          su.sessions[s] == Left(st.sessions[s], l.session == Some(s), Vacant(su.leases, s)))
  }

  /** The lease fails, and the whole cohort of its reservation with it. */
  ghost predicate OfferRefused(st: Pool, su: Pool, id: nat)
    requires id in st.leases
  {
    var l := st.leases[id];
    && su == st.(leases := su.leases, reservations := su.reservations, sessions := su.sessions)
    && su.leases.Keys == st.leases.Keys && su.reservations.Keys == st.reservations.Keys
    && su.sessions.Keys == st.sessions.Keys
    && (forall i :: i in st.leases ==>
          su.leases[i] == if !LeaseEnded(st.leases[i])
                             && (i == id || (l.req.pin in st.reservations
                                             && PinnedTo(st, st.leases[i], st.reservations[l.req.pin].key)))
                          then st.leases[i].(state := Failed) else st.leases[i])
    && (forall r :: r in st.reservations ==>
          su.reservations[r] == ReservationEnds(st.reservations[r],
                                                l.req.pin in st.reservations
                                                && st.reservations[r].key == st.reservations[l.req.pin].key, ResFailed))
    && (forall s :: s in st.sessions ==>
          su.sessions[s] == Left(st.sessions[s], l.session == Some(s), Vacant(su.leases, s)))
  }

  lemma TargetIs(st: Pool, cfg: Config, id: nat, now: int)
    requires id in st.leases
    ensures TargetGone(st, cfg, id, now) <==> !(PinStands(st, id, st.leases[id]) && TargetStands(st, cfg, st.leases[id], now))
  {
  }

  lemma StartIs(st: Pool, id: nat, now: int)
    requires id in st.leases
    ensures Transient(st, id, now) <==> !MayStart(st, st.leases[id], now)
  {
  }

  /** The refresh of the Desktop that a lease left. */
  function Rest(st: Pool, s: Option<nat>): Pool {
    if s.Some? then RefreshSessions(st, {s.value}) else st
  }

  lemma RestRows(st: Pool, which: Option<nat>)
    ensures
      var su := Rest(st, which);
      && su == st.(sessions := su.sessions) && su.sessions.Keys == st.sessions.Keys
      && forall s :: s in st.sessions ==>
           su.sessions[s] == Left(st.sessions[s], which == Some(s), Vacant(st.leases, s))
  {
    forall s | s in st.sessions
      ensures Refreshed(st.sessions[s], NoHolder(st.leases, s)) == Rested(st.sessions[s], Vacant(st.leases, s))
    {
      SameOwners(st.leases, s);
      RestedIs(st.sessions[s], Vacant(st.leases, s));
      hide Refreshed, Rested, Vacant, NoHolder;
    }
    hide Refreshed, Rested, Vacant, NoHolder;
  }

  lemma RevokeRows(st: Pool, cfg: Config, id: nat, now: int)
    requires id in st.leases && st.leases[id].state.Offered?
    ensures OfferRevoked(st, RevokeOffer(st, cfg, id, now), cfg, id, now)
  {
    hide RequeueOffers, RefreshSessions, Left, Vacant;
    var l := st.leases[id];
    var beaten := st.(leases := st.leases[id := l.(heartbeat := now, expires := now + cfg.leaseTtl)]);
    var su := RequeueOffers(beaten, {id});
    RequeuedRows(st, beaten, id);
    assert RevokeOffer(st, cfg, id, now) == Rest(su, l.session);
    RestRows(su, l.session);
    hide RevokeOffer, Rest;
  }

  lemma RequeuedRows(st: Pool, beaten: Pool, id: nat)
    requires id in st.leases && st.leases[id].state.Offered?
    requires id in beaten.leases && beaten == st.(leases := st.leases[id := beaten.leases[id]])
    requires beaten.leases[id].state.Offered?
    ensures
      var su := RequeueOffers(beaten, {id});
      && su == st.(leases := su.leases, reservations := su.reservations)
      && su.leases == st.leases[id := beaten.leases[id].(state := Queued, session := None, slot := 0, permit := None)]
      && su.reservations.Keys == st.reservations.Keys
      && (forall r :: r in st.reservations ==>
            su.reservations[r] == if st.reservations[r].state.Consumed? && st.reservations[r].lease == Some(id)
                                  then st.reservations[r].(state := Claimed) else st.reservations[r])
  {
  }

  /** The cohort of the pin, or nothing. */
  function Unpinned(st: Pool, id: nat, now: int): Pool
    requires id in st.leases
  {
    var pin := st.leases[id].req.pin;
    if pin in st.reservations then FailCohorts(st, {st.reservations[pin].key}, false, now) else st
  }

  lemma UnpinnedRows(st: Pool, id: nat, now: int)
    requires id in st.leases
    ensures
      var l := st.leases[id];
      var known := l.req.pin in st.reservations;
      var su := Unpinned(st, id, now);
      && su == st.(leases := su.leases, reservations := su.reservations)
      && su.leases.Keys == st.leases.Keys && su.reservations.Keys == st.reservations.Keys
      && (forall i :: i in st.leases ==>
            su.leases[i] == if !LeaseEnded(st.leases[i]) && known && PinnedTo(st, st.leases[i], st.reservations[l.req.pin].key)
                            then st.leases[i].(state := Failed) else st.leases[i])
      && (forall r :: r in st.reservations ==>
            su.reservations[r] == ReservationEnds(st.reservations[r],
                                                  known && st.reservations[r].key == st.reservations[l.req.pin].key, ResFailed))
  {
    hide FailCohorts;
    var l := st.leases[id];
    if l.req.pin in st.reservations {
      var key := st.reservations[l.req.pin].key;
      FailsNoDesktop(st, {key}, now);
      FailRows(st, {key}, false, now);
    }
  }

  lemma FailsNoDesktop(st: Pool, keys: set<CohortKey>, now: int)
    ensures FailCohorts(st, keys, false, now).sessions == st.sessions
  {
  }

  lemma RefuseRows(st: Pool, id: nat, now: int)
    requires id in st.leases
    ensures OfferRefused(st, RefuseOffer(st, id, now), id)
  {
    hide FailCohorts, FailLeases, RefreshSessions, PinnedTo, ReservationEnds, Left, Vacant, LeaseEnded;
    var l := st.leases[id];
    UnpinnedRows(st, id, now);
    var su := Unpinned(st, id, now);
    FailedOne(su, id);
    var sv := FailLeases(su, {id});
    assert RefuseOffer(st, id, now) == Rest(sv, l.session);
    RestRows(sv, l.session);
    hide RefuseOffer, Rest, Unpinned;
    FailedKeeps(st.leases);
  }

  /** Failing twice is failing once. */
  lemma FailedKeeps(ls: Leases)
    ensures forall i :: i in ls ==> LeaseEnded(ls[i].(state := Failed))
  {
  }

  lemma FailedOne(st: Pool, id: nat)
    ensures
      var su := FailLeases(st, {id});
      && su == st.(leases := su.leases) && su.leases.Keys == st.leases.Keys
      && forall i :: i in st.leases ==>
           su.leases[i] == if i == id && !LeaseEnded(st.leases[i]) then st.leases[i].(state := Failed) else st.leases[i]
  {
  }

  /** An offer is accepted exactly while its target stands and the project may start; a pinned
      offer whose target is lost fails with its cohort, and any other one goes back to the queue. */
  ghost predicate OfferAnswered(st: Pool, su: Pool, cfg: Config, id: nat, token: string, now: int)
  {
    if Owned(st, id, token) && st.leases[id].req.protocol >= 2 && st.leases[id].state.Offered? then
      var l := st.leases[id];
      var stands := PinStands(st, id, l) && TargetStands(st, cfg, l, now);
      if stands && MayStart(st, l, now) then
        OnlyLease(st, su, id, l.(state := Attaching, heartbeat := now, expires := now + cfg.leaseTtl))
      else if !stands && l.req.pin != 0 then OfferRefused(st, su, id)
      else OfferRevoked(st, su, cfg, id, now)
    else su == st
  }

  lemma AcceptOutcome(st: Pool, cfg: Config, id: nat, token: string, now: int)
    ensures OfferAnswered(st, AcceptLease(st, cfg, id, token, now), cfg, id, token, now)
  {
    hide TargetGone, Transient, RefuseOffer, RevokeOffer, PinStands, TargetStands, MayStart, OfferRefused, OfferRevoked;
    if Owned(st, id, token) && st.leases[id].req.protocol >= 2 && st.leases[id].state.Offered? {
      TargetIs(st, cfg, id, now);
      StartIs(st, id, now);
      RefuseRows(st, id, now);
      RevokeRows(st, cfg, id, now);
    }
  }

  // ----- the end of a lease, and the completion marker -----

  /** A marker is written exactly for the active lease's own permit, and names its Desktop. */
  ghost predicate PipelineMarked(st: Pool, su: Pool, cfg: Config, id: nat, token: string, wave: nat, now: int)
  {
    if Owned(st, id, token) && st.leases[id].state.Active? && wave != 0 && st.leases[id].session.Some?
       && st.leases[id].permit == Some(wave) then
      OnlyLease(st, su, id, st.leases[id].(heartbeat := now, expires := now + cfg.leaseTtl,
                                          marker := Some(Marker(st.leases[id].session.value, wave))))
    else su == st
  }

  lemma CompletionOutcome(st: Pool, cfg: Config, id: nat, token: string, wave: nat, now: int)
    ensures PipelineMarked(st, CompletePipeline(st, cfg, id, token, wave, now), cfg, id, token, wave, now)
  {
  }

  /** A cancelled lease with a project on a Desktop, or an accepted protocol-1 lease, releases in
      two phases behind the barrier; any other live lease ends, and its Desktop rests. */
  ghost predicate Cancels(st: Pool, su: Pool, id: nat, now: int)
    requires id in st.leases
  {
    var l := st.leases[id];
    var closes := l.session.Some? && (ProjectThere(l) || (l.state.Leased? && l.req.protocol < 2));
    && su == st.(leases := su.leases, sessions := su.sessions) && su.sessions.Keys == st.sessions.Keys
    && su.leases == st.leases[id := if closes then l.(state := Releasing, releaseAt := Some(now))
                                    else l.(state := PoolRows.Cancelled, session := None, slot := 0)]
    && (forall s :: s in st.sessions ==>
          su.sessions[s] == if closes then BarrierUp(st.sessions[s], l.session == Some(s), now)
                            else Left(st.sessions[s], l.session == Some(s), Vacant(su.leases, s)))
  }

  lemma BlockRows(st: Pool, s: nat, now: int)
    ensures
      var su := BlockSessions(st, {s}, now);
      && su == st.(sessions := su.sessions) && su.sessions.Keys == st.sessions.Keys
      && forall t :: t in st.sessions ==> su.sessions[t] == BarrierUp(st.sessions[t], t == s, now)
  {
  }

  predicate ClosesFirst(l: Lease) {
    l.session.Some? && (ProjectThere(l) || (l.state.Leased? && l.req.protocol < 2))
  }

  lemma CancelCloses(st: Pool, id: nat, token: string, now: int)
    requires Owned(st, id, token) && !LeaseEnded(st.leases[id]) && ClosesFirst(st.leases[id])
    ensures Cancels(st, CancelLease(st, id, token, now), id, now)
  {
    hide BlockSessions, RefreshSessions, BarrierUp, Left, Vacant;
    BlockRows(st, st.leases[id].session.value, now);
  }

  lemma CancelEnds(st: Pool, id: nat, token: string, now: int)
    requires Owned(st, id, token) && !LeaseEnded(st.leases[id]) && !ClosesFirst(st.leases[id])
    ensures Cancels(st, CancelLease(st, id, token, now), id, now)
  {
    hide BlockSessions, RefreshSessions, BarrierUp, Left, Vacant;
    var l := st.leases[id];
    var su := st.(leases := st.leases[id := l.(state := PoolRows.Cancelled, session := None, slot := 0)]);
    assert CancelLease(st, id, token, now) == Rest(su, l.session);
    hide CancelLease, Rest;
    RestRows(su, l.session);
  }

  ghost predicate LeaseCancelled(st: Pool, su: Pool, id: nat, token: string, now: int)
  {
    if Owned(st, id, token) && !LeaseEnded(st.leases[id]) then Cancels(st, su, id, now) else su == st
  }

  lemma CancelOutcome(st: Pool, id: nat, token: string, now: int)
    ensures LeaseCancelled(st, CancelLease(st, id, token, now), id, token, now)
  {
    hide Cancels, ClosesFirst;
    if Owned(st, id, token) && !LeaseEnded(st.leases[id]) {
      if ClosesFirst(st.leases[id]) {
        CancelCloses(st, id, token, now);
      } else {
        CancelEnds(st, id, token, now);
      }
    }
  }

  // ----- reports about a Desktop -----

  /** The allocation drains for the given reason, if it is open. */
  predicate AllocationDrains(allocations: Allocations, after: Allocations, a: nat, reason: DrainReason) {
    && after.Keys == allocations.Keys
    && forall b :: b in allocations ==>
         after[b] == if b == a && (allocations[b].state.Warm? || allocations[b].state.InUse? || allocations[b].state.AllocDraining?)
                     then allocations[b].(state := AllocDraining, reason := reason) else allocations[b]
  }

  lemma DrainRows(st: Pool, a: nat, reason: DrainReason)
    ensures
      var su := DrainAllocation(st, a, reason);
      su == st.(allocations := su.allocations) && AllocationDrains(st.allocations, su.allocations, a, reason)
  {
  }

  /** The lease may have a solve running. */
  predicate Running(l: Lease) {
    l.state.Leased? || l.state.Attaching? || l.state.Active?
  }

  lemma TimedOutLeases(st: Pool, id: nat, now: int)
    ensures
      CloseTimedOut(st, id, now)
      == st.(leases := if id in st.leases && Running(st.leases[id])
                       then st.leases[id := st.leases[id].(state := Releasing, releaseAt := Some(now))] else st.leases)
  {
  }

  /** A Desktop that works or drains drains in quarantine, behind its barrier. */
  function InQuarantine(x: Session, until: int, fault: Fault, now: int): Session {
    if Works(x) || x.state.Draining?
    then x.(state := Draining, quarantine := OtherQuarantine, quarantineUntil := Some(until), fault := fault,
            blockedAt := Armed(x.blockedAt, now), drainAt := Armed(x.drainAt, now))
    else x
  }

  lemma SeenSessions(st: Pool, s: nat, until: int, fault: Fault, now: int)
    ensures
      QuarantineSeen(st, s, until, fault, now)
      == st.(sessions := if s in st.sessions then st.sessions[s := InQuarantine(st.sessions[s], until, fault, now)]
                         else st.sessions)
  {
    if s in st.sessions && InQuarantine(st.sessions[s], until, fault, now) == st.sessions[s] {
      assert st.sessions[s := st.sessions[s]] == st.sessions;
    }
  }

  /** The solver of the lease timed out: its project is released, the Desktop that was read
      before goes into quarantine, and the allocation that was read before drains. */
  ghost predicate TimeoutTaken(st: Pool, su: Pool, id: nat, seenSession: nat, seenAllocation: nat, until: int, fault: Fault,
                               now: int)
  {
    && su == st.(leases := su.leases, sessions := su.sessions, allocations := su.allocations)
    && su.leases == (if id in st.leases && Running(st.leases[id])
                     then st.leases[id := st.leases[id].(state := Releasing, releaseAt := Some(now))] else st.leases)
    && su.sessions == (if seenSession in st.sessions
                       then st.sessions[seenSession := InQuarantine(st.sessions[seenSession], until, fault, now)]
                       else st.sessions)
    && AllocationDrains(st.allocations, su.allocations, seenAllocation, PoolReason)
  }

  lemma SolverTimeoutOutcome(st: Pool, id: nat, seenSession: nat, seenAllocation: nat, until: int, fault: Fault, now: int)
    ensures TimeoutTaken(st, SolverTimeout(st, id, seenSession, seenAllocation, until, fault, now), id, seenSession, seenAllocation, until, fault, now)
  {
    hide CloseTimedOut, QuarantineSeen, InQuarantine, DrainAllocation, AllocationDrains, Running;
    var closed := CloseTimedOut(st, id, now);
    TimedOutLeases(st, id, now);
    SeenSessions(closed, seenSession, until, fault, now);
    DrainRows(QuarantineSeen(closed, seenSession, until, fault, now), seenAllocation, PoolReason);
  }

  /** A working Desktop whose transport is suspect is unhealthy, and may come back. */
  ghost predicate SuspicionTaken(st: Pool, su: Pool, s: nat)
  {
    su == if s in st.sessions && Works(st.sessions[s])
       then st.(sessions := st.sessions[s := st.sessions[s].(state := Unhealthy, fault := TransportSuspect, drainAt := None)])
       else st
  }

  lemma SuspectOutcome(st: Pool, s: nat)
    ensures SuspicionTaken(st, SuspectTransport(st, s), s)
  {
  }

  /** A Desktop that died is unhealthy in quarantine, and its allocation drains in any case. */
  ghost predicate DeathTaken(st: Pool, su: Pool, s: nat, fault: Fault, now: int)
  {
    if s in st.sessions then
      var x := st.sessions[s];
      && su == st.(sessions := su.sessions, allocations := su.allocations)
      && su.sessions == (if Works(x) || x.state.Draining?
                         then st.sessions[s := x.(state := Unhealthy, fault := fault, quarantine := OtherQuarantine,
                                                  drainAt := Armed(x.drainAt, now))]
                         else st.sessions)
      && AllocationDrains(st.allocations, su.allocations, x.allocation, PoolReason)
    else su == st
  }

  lemma DeathOutcome(st: Pool, s: nat, fault: Fault, now: int)
    ensures DeathTaken(st, ReportDeath(st, s, fault, now), s, fault, now)
  {
    if s in st.sessions {
      var x := st.sessions[s];
      var su := if x.state.Assignable() || x.state.Draining?
                then st.(sessions := st.sessions[s := x.(state := Unhealthy, fault := fault, quarantine := OtherQuarantine,
                                                         drainAt := Coalesce(x.drainAt, now))])
                else st;
      hide DrainAllocation, AllocationDrains;
      DrainRows(su, x.allocation, PoolReason);
    }
  }
}
