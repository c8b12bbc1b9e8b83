/** The seal of an empty Desktop: which step clears it, and what becomes of a Desktop that
    lost its last owner without being unsealed. */
module PoolSeals {
  import opened PoolRows
  import opened PoolInvariant
  import opened PoolCalm
  import opened PoolRefresh
  import opened PoolRefreshProofs
  import opened PoolPlacement
  import opened PoolPlacementProofs
  import opened PoolSolve
  import opened PoolGrant
  import opened PoolEntry
  import opened PoolCursor
  import opened PoolClient
  import opened PoolClientProofs
  import opened PoolAdmissionProofs
  import opened PoolHost
  import opened PoolHostProofs
  import opened PoolReconcile
  import opened PoolReconcileProofs
  import opened PoolSteps
  import opened PoolStepProofs
  import opened PoolSafety

  /** A Desktop that takes new work is sealed although nobody is left on it. */
  predicate Stuck(st: Pool, s: nat) {
    s in st.sessions && st.sessions[s].state.Assignable() && st.sessions[s].isSealed && NoHolder(st.leases, s)
  }

  /** Stuck, or not assignable any more. */
  predicate Idle(st: Pool, s: nat) {
    s in st.sessions && st.sessions[s].started.Some? && (st.sessions[s].state.Assignable() ==> Stuck(st, s))
  }

  /** The seal is there, or the Desktop takes no work. */
  predicate Shut(st: Pool, s: nat) {
    s in st.sessions && (st.sessions[s].isSealed || !st.sessions[s].state.Assignable())
  }

  /** What a quiet step leaves of an idle Desktop, if it leaves the seal. */
  lemma KeptIdle(safe: set<string>, target: int, st: Pool, su: Pool, s: nat)
    requires Kept(safe, target, NOTHING, st, su) && Idle(st, s)
    requires Stuck(st, s) ==> Shut(su, s)
    ensures Idle(su, s)
  {
    assert SessionEvolves(st.sessions[s], su.sessions[s]) && RestSession(st.sessions[s], su.sessions[s]);
    hide Inv, Owned, Quiet, Lifecycle, Admits, BarrierHolds, Arms, Barred, WavesFrozen;
    if su.sessions[s].state.Assignable() {
      assert BatchClosed(st, su, s);
      forall id | id in su.leases
        ensures !Holder(su.leases[id], s)
      {
        assert id !in Holders(st.leases, s);
        assert id !in Holders(su.leases, s);
      }
    }
  }

  lemma EbbIdle(safe: set<string>, target: int, st: Pool, su: Pool, s: nat)
    requires Ebbs(safe, target, st, su) && Idle(st, s)
    requires Stuck(st, s) ==> Shut(su, s)
    ensures Idle(su, s) && Inv(safe, su)
  {
    hide Kept, Inv, Stuck, Shut, Idle;
    EbbKept(safe, target, st, su);
    KeptIdle(safe, target, st, su, s);
    EbbsInv(safe, target, st, su);
  }

  // ----- the reservation refresh -----

  /** A live reservation of a stuck Desktop belongs to a finished lease. */
  lemma StuckReservations(safe: set<string>, st: Pool, s: nat, r: nat)
    requires Inv(safe, st) && Stuck(st, s) && r in st.reservations && LiveOn(st.reservations[r], s)
    ensures st.reservations[r].state.Consumed? && LeaseOver(st.leases, st.reservations[r].lease)
  {
    assert ReservationRow(st.sessions, st.leases, r, st.reservations[r]);
    var id := st.reservations[r].lease.value;
    assert LeaseRow(st.sessions, st.leases[id]);
  }

  /** Once finished reservations are released, no cohort of a stuck Desktop is touched. */
  lemma NotAffected(safe: set<string>, st: Pool, s: nat)
    requires Inv(safe, st) && Inv(safe, ReleaseFinished(st)) && Stuck(st, s)
    ensures
      var su := ReleaseFinished(st);
      forall r :: r in su.reservations && su.reservations[r].key in InvalidKeys(su) ==> su.reservations[r].session != s
  {
    var su := ReleaseFinished(st);
    forall r | r in su.reservations && su.reservations[r].key in InvalidKeys(su)
      ensures su.reservations[r].session != s
    {
      var q :| q in su.reservations && Invalidated(su, q) && su.reservations[q].key == su.reservations[r].key;
      assert q != r ==> CohortPair(su.reservations[q], su.reservations[r]);
      FinishedGone(safe, st, s, q);
    }
  }

  lemma FinishedGone(safe: set<string>, st: Pool, s: nat, r: nat)
    requires Inv(safe, st) && Stuck(st, s) && r in ReleaseFinished(st).reservations
    ensures !LiveOn(ReleaseFinished(st).reservations[r], s)
  {
    if LiveOn(st.reservations[r], s) {
      StuckReservations(safe, st, s, r);
    }
    hide Inv;
  }

  lemma FailInvalidShut(safe: set<string>, st: Pool, now: int, s: nat)
    requires Stuck(st, s)
    requires forall r :: r in st.reservations && st.reservations[r].key in InvalidKeys(st) ==> st.reservations[r].session != s
    ensures Shut(FailInvalidTargets(st, now), s)
  {
    hide InvalidKeys, CohortLeases;
  }

  lemma CohortsShut(st: Pool, keys: set<CohortKey>, settle: bool, now: int, s: nat)
    requires Stuck(st, s)
    ensures Shut(FailCohorts(st, keys, settle, now), s) && Shut(ExpireCohorts(st, keys, now), s)
  {
    hide CohortLeases, SessionsOf, HasPermit, OwnsProject;
  }

  lemma RefreshIdle(safe: set<string>, st: Pool, now: int, s: nat)
    requires Inv(safe, st) && Idle(st, s)
    ensures Idle(RefreshReservations(st, now), s) && Inv(safe, RefreshReservations(st, now))
  {
    hide Inv, Ebbs, Idle, Shut, Stuck, FailCohorts, ExpireCohorts, ReleaseFinished, FailInvalidTargets, InvalidKeys;
    var s1 := FailCohorts(st, TerminalSiblingKeys(st), true, now);
    FailCohortsEbbs(safe, 0, st, TerminalSiblingKeys(st), true, now);
    if Stuck(st, s) { CohortsShut(st, TerminalSiblingKeys(st), true, now, s); }
    EbbIdle(safe, 0, st, s1, s);
    var s2 := ExpireCohorts(s1, ExpiredKeys(s1, now), now);
    ExpireCohortsEbbs(safe, 0, s1, ExpiredKeys(s1, now), now);
    if Stuck(s1, s) { CohortsShut(s1, ExpiredKeys(s1, now), true, now, s); }
    EbbIdle(safe, 0, s1, s2, s);
    var s3 := ReleaseFinished(s2);
    ReleaseFinishedEbbs(safe, 0, s2);
    if Stuck(s2, s) { ReleaseShut(s2, s); }
    EbbIdle(safe, 0, s2, s3, s);
    FailInvalidTargetsEbbs(safe, 0, s3, now);
    if Stuck(s3, s) {
      ReleaseStuck(s2, s);
      NotAffected(safe, s2, s);
      FailInvalidShut(safe, s3, now, s);
    }
    EbbIdle(safe, 0, s3, FailInvalidTargets(s3, now), s);
  }

  lemma ReleaseShut(st: Pool, s: nat)
    requires Stuck(st, s)
    ensures Shut(ReleaseFinished(st), s)
  {
  }

  lemma ReleaseStuck(st: Pool, s: nat)
    requires Stuck(ReleaseFinished(st), s)
    ensures Stuck(st, s)
  {
  }

  // ----- placement -----

  lemma PlaceOneShut(st: Pool, cfg: Config, id: nat, now: int, s: nat)
    requires Stuck(st, s)
    ensures Shut(PlaceOne(st, cfg, id, now), s)
  {
    hide LeaseFits, PinClaimed, MayPlace;
    if id in st.leases && MayPlace(st, cfg, id, now) && FittingSessions(st, cfg, id, now) != {} {
      var t := First(st.leases, FittingSessions(st, cfg, id, now));
      assert t in FittingSessions(st, cfg, id, now) && t != s;
      SeatEffect(st, cfg, id, t, now);
      hide FittingSessions, Seat;
    }
  }

  lemma {:induction false} PlaceEachIdle(safe: set<string>, st: Pool, cfg: Config, ids: seq<nat>, now: int, s: nat)
    requires Inv(safe, st) && Idle(st, s)
    ensures Idle(PlaceEach(st, cfg, ids, now), s)
    decreases |ids|
  {
    hide Inv, Kept, Idle, Stuck, Shut, PlaceOne;
    if ids != [] {
      var su := PlaceOne(st, cfg, ids[0], now);
      PlaceOneKept(safe, st, cfg, ids[0], now);
      if Stuck(st, s) { PlaceOneShut(st, cfg, ids[0], now, s); }
      KeptIdle(safe, cfg.target, st, su, s);
      KeptInv(safe, cfg.target, NOTHING, st, su);
      PlaceEachIdle(safe, su, cfg, ids[1..], now, s);
    }
  }

  lemma PlaceIdle(safe: set<string>, st: Pool, cfg: Config, id: nat, now: int, s: nat)
    requires Inv(safe, st) && Idle(st, s)
    ensures Idle(PlaceBatch(st, cfg, now), s) && Idle(PlaceNamed(st, cfg, id, now), s)
  {
    var batch := Batch(Eligible(st, cfg, now), st.cursor);
    var su := st.(cursor := NextCursor(batch));
    assert Inv(safe, su) by {
      ElsewhereEbbs(safe, 0, st, su);
      EbbsInv(safe, 0, st, su);
    }
    assert Idle(su, s);
    hide Inv, Idle, PlaceEach;
    PlaceEachIdle(safe, su, cfg, batch, now, s);
    PlaceEachIdle(safe, st, cfg, [id], now, s);
  }

  lemma RefreshPlaceIdle(safe: set<string>, st: Pool, cfg: Config, id: nat, now: int, s: nat)
    requires Inv(safe, st) && Idle(st, s)
    ensures
      var su := RefreshReservations(st, now);
      Idle(PlaceBatch(su, cfg, now), s) && Idle(PlaceNamed(su, cfg, id, now), s)
  {
    hide Inv, Idle, RefreshReservations, PlaceBatch, PlaceNamed;
    RefreshIdle(safe, st, now, s);
    PlaceIdle(safe, RefreshReservations(st, now), cfg, id, now, s);
  }

  // ----- client transactions -----

  /** A lease that holds a slot holds it elsewhere. */
  lemma Elsewhere(st: Pool, s: nat, id: nat)
    requires Stuck(st, s) && id in st.leases && st.leases[id].state.Holds()
    ensures st.leases[id].session != Some(s)
  {
  }

  lemma RefreshOther(st: Pool, which: set<nat>, s: nat)
    requires Shut(st, s) && s !in which
    ensures Shut(RefreshSessions(st, which), s)
  {
  }

  lemma IdleShut(st: Pool, s: nat)
    requires Idle(st, s)
    ensures Shut(st, s)
  {
  }

  lemma StuckIdle(safe: set<string>, st: Pool, s: nat)
    requires Inv(safe, st) && Stuck(st, s)
    ensures Idle(st, s)
  {
    BootedRow(safe, st, s);
    hide Inv;
  }

  lemma EnterIdle(safe: set<string>, st: Pool, cfg: Config, w: Wish, pin: Option<nat>, now: int, s: nat)
    requires Inv(safe, st) && Idle(st, s) && PinFor(st.reservations, w, pin)
    ensures
      var r := Enter(st, cfg, w, pin, now);
      r.Some? ==> Idle(r.value.0, s) && Inv(safe, r.value.0)
  {
    hide Inv, Kept;
    var r := Enter(st, cfg, w, pin, now);
    if r.Some? {
      EnterKept(safe, st, cfg, w, pin, now);
      if Stuck(st, s) {
        InvLeaseRows(safe, st);
        EnterShut(st, cfg, w, pin, now, s);
      }
      hide Enter, Idle, Stuck, Shut;
      KeptIdle(safe, cfg.target, st, r.value.0, s);
      KeptInv(safe, cfg.target, NOTHING, st, r.value.0);
    }
  }

  lemma SupersedeShut(st: Pool, id: nat, archived: string, s: nat)
    requires Stuck(st, s) && LeaseRows(st.sessions, st.leases) && id in st.leases
    ensures Shut(Supersede(st, id, archived), s)
  {
    assert LeaseRow(st.sessions, st.leases[id]);
    hide LeaseRows;
    if st.leases[id].state.Holds() {
      Elsewhere(st, s, id);
    }
  }

  lemma EnterShut(st: Pool, cfg: Config, w: Wish, pin: Option<nat>, now: int, s: nat)
    requires Stuck(st, s) && LeaseRows(st.sessions, st.leases) && (pin.Some? ==> pin.value in st.reservations)
    ensures var r := Enter(st, cfg, w, pin, now); r.Some? ==> Shut(r.value.0, s)
  {
    hide LeaseRows, NewLease, Archived, Supersede, Replaceable;
    var same := WithKey(st.leases, w.key);
    if same != {} {
      var id := Least(same);
      SupersedeShut(st, id, Archived(w.key, id), s);
    }
  }

  lemma RequestLeaseIdle(safe: set<string>, st: Pool, cfg: Config, w: Wish, now: int, s: nat)
    requires Inv(safe, st) && Idle(st, s)
    ensures Idle(RequestLease(st, cfg, w, now), s)
  {
    hide Inv, Idle, RefreshReservations, Enter, Authorize, PlaceNamed;
    var su := RefreshReservations(st, now);
    RefreshIdle(safe, st, now, s);
    AuthorityFor(su, cfg, w, now);
    var authority := Authorize(su, cfg, w, now);
    var pin := if authority.Pinned? then Some(authority.id) else None;
    EnterIdle(safe, su, cfg, w, pin, now, s);
    var r := Enter(su, cfg, w, pin, now);
    if r.Some? {
      PlaceIdle(safe, r.value.0, cfg, r.value.1, now, s);
    }
  }

  lemma {:induction false} AddReservationsSessions(st: Pool, r: Reservation, tasks: seq<nat>)
    ensures AddReservations(st, r, tasks).sessions == st.sessions
    decreases |tasks|
  {
    if tasks != [] {
      AddReservationsSessions(AddReservation(st, r.(task := tasks[0])), r, tasks[1..]);
    }
  }

  lemma CreateReservationShut(safe: set<string>, st: Pool, cfg: Config, name: string, t: nat, generation: nat,
                              profile: string, tasks: set<nat>, ttl: int, now: int, s: nat)
    requires Inv(safe, st) && Idle(st, s)
    ensures Shut(CreateReservation(st, cfg, name, t, generation, profile, tasks, ttl, now), s)
  {
    hide Inv, Idle, RefreshReservations, AddReservations, InOrder, CohortAdmissible, SameCohort;
    var su := RefreshReservations(st, now);
    RefreshIdle(safe, st, now, s);
    IdleShut(st, s);
    IdleShut(su, s);
    var r := Reservation(Operator(name), 0, t, generation, profile, "", None, Reserved, None, now + ttl);
    AddReservationsSessions(su, r, InOrder(tasks));
  }

  lemma FailCohortsSameSessions(st: Pool, keys: set<CohortKey>, now: int)
    ensures FailCohorts(st, keys, false, now).sessions == st.sessions
  {
  }

  lemma PrepareTaskShut(safe: set<string>, st: Pool, cfg: Config, i: Intent, route: set<nat>, chosen: nat, now: int, s: nat)
    requires Inv(safe, st) && Idle(st, s)
    ensures Shut(PrepareTask(st, cfg, i, route, chosen, now), s)
  {
    hide Inv, Idle, RefreshReservations, FailCohorts, LatestUsable, AutoCandidate, AutoReservation, Collides, AdmittedExcept;
    var su := RefreshReservations(st, now);
    RefreshIdle(safe, st, now, s);
    IdleShut(st, s);
    IdleShut(su, s);
    var newest := Newest(su.reservations, i.task);
    if newest.Some? {
      FailCohortsSameSessions(su, {su.reservations[newest.value].key}, now);
    }
  }

  lemma HeartbeatLeaseShut(safe: set<string>, st: Pool, cfg: Config, id: nat, token: string, now: int, s: nat)
    requires Inv(safe, st) && Idle(st, s)
    ensures Shut(HeartbeatLease(st, cfg, id, token, now), s)
  {
    hide Inv, Ebbs, Idle, Stuck, RefreshReservations, PlaceNamed, PlaceBatch;
    IdleShut(st, s);
    if Authorized(st, id, token) && st.leases[id].state.Queued? && cfg.operational {
      var l := st.leases[id];
      var m := l.(heartbeat := now, expires := now + cfg.leaseTtl, offerExpires := l.offerExpires, state := l.state);
      var su := st.(leases := st.leases[id := m]);
      TouchEbbs(safe, 0, st, id, m);
      EbbIdle(safe, 0, st, su, s);
      RefreshPlaceIdle(safe, su, cfg, id, now, s);
      IdleShut(PlaceNamed(RefreshReservations(su, now), cfg, id, now), s);
    }
  }

  lemma AcceptLeaseShut(st: Pool, cfg: Config, id: nat, token: string, now: int, s: nat)
    requires Stuck(st, s)
    ensures Shut(AcceptLease(st, cfg, id, token, now), s)
  {
    hide TargetGone, Transient, CohortLeases, SessionsOf;
    if id in st.leases && st.leases[id].state.Offered? {
      Elsewhere(st, s, id);
    }
  }

  lemma CancelLeaseShut(safe: set<string>, st: Pool, id: nat, token: string, now: int, s: nat)
    requires LeaseRows(st.sessions, st.leases) && Stuck(st, s)
    ensures Shut(CancelLease(st, id, token, now), s)
  {
    if Authorized(st, id, token) {
      assert LeaseRow(st.sessions, st.leases[id]);
      hide LeaseRows;
      if st.leases[id].state.Holds() {
        Elsewhere(st, s, id);
      }
    }
  }

  lemma GrantReadyShut(safe: set<string>, st: Pool, t: nat, now: int, underfilled: bool, s: nat)
    requires Shut(st, s)
    ensures Shut(GrantReady(safe, st, t, now, underfilled), s)
  {
    hide MaySeal, WaveOver, WaveSucceeded, NextWave;
  }

  lemma GrantShut(safe: set<string>, st: Pool, t: nat, now: int, underfilled: bool, s: nat)
    requires Inv(safe, st) && Idle(st, s)
    ensures Shut(GrantBatch(safe, st, t, now, underfilled), s)
  {
    hide Inv, Idle, Shut, RefreshReservations, GrantReady;
    RefreshIdle(safe, st, now, s);
    IdleShut(RefreshReservations(st, now), s);
    GrantReadyShut(safe, RefreshReservations(st, now), t, now, underfilled, s);
  }

  lemma ActivateShut(safe: set<string>, st: Pool, cfg: Config, id: nat, token: string,
                     seenState: LeaseState, seenSession: nat, now: int, s: nat)
    requires Inv(safe, st) && Idle(st, s)
    ensures Shut(ActivateLease(safe, st, cfg, id, token, seenState, seenSession, now), s)
  {
    hide Inv, Ebbs, GrantBatch;
    if Authorized(st, id, token) && st.leases[id].state == seenState && (seenState.Leased? || seenState.Attaching?) {
      var m := st.leases[id].(state := Active, heartbeat := now, expires := now + cfg.leaseTtl);
      var su := st.(leases := st.leases[id := m]);
      OneLeaseEbbs(safe, 0, st, id, m);
      EbbIdle(safe, 0, st, su, s);
      GrantShut(safe, su, seenSession, now, false, s);
    }
  }

  lemma PermitShut(safe: set<string>, st: Pool, cfg: Config, id: nat, token: string, underfilled: bool, now: int, s: nat)
    requires Inv(safe, st) && Idle(st, s)
    ensures Shut(RequestSolvePermit(safe, st, cfg, id, token, underfilled, now), s)
  {
    hide Inv, Ebbs, GrantBatch;
    if Authorized(st, id, token) && st.leases[id].state.Active? {
      var m := st.leases[id].(heartbeat := now, expires := now + cfg.leaseTtl);
      var su := st.(leases := st.leases[id := m]);
      TouchEbbs(safe, 0, st, id, m);
      EbbIdle(safe, 0, st, su, s);
      if st.leases[id].session.Some? {
        GrantShut(safe, su, st.leases[id].session.value, now, underfilled, s);
      }
    }
  }

  // ----- host transactions -----

  lemma ClearedIdle(st: Pool, t: nat, now: int, s: nat)
    requires Idle(st, s) && t in st.sessions
    ensures Idle(st.(sessions := st.sessions[t := st.sessions[t].(blockedAt := None, heartbeat := Some(now))]), s)
  {
  }

  lemma PlainHeartbeatShut(st: Pool, cfg: Config, t: nat, token: string, alive: bool, now: int, s: nat)
    requires Stuck(st, s) && !(HostAuthorized(st, t, token) && BarrierMayClear(st, t, now))
    ensures Shut(HeartbeatSession(st, cfg, t, token, alive, now), s)
  {
    hide BarrierMayClear, NoHolder;
  }

  lemma HeartbeatSessionShut(safe: set<string>, st: Pool, cfg: Config, t: nat, token: string, alive: bool, now: int, s: nat)
    requires Inv(safe, st) && Stuck(st, s)
    ensures Shut(HeartbeatSession(st, cfg, t, token, alive, now), s)
  {
    if HostAuthorized(st, t, token) && BarrierMayClear(st, t, now) {
      hide Inv, Kept, Idle, RefreshReservations, PlaceBatch, PlaceNamed;
      NotRecoverable(st, t, cfg.operational, now);
      var su := st.(sessions := st.sessions[t := st.sessions[t].(blockedAt := None, heartbeat := Some(now))]);
      ClearSettles(safe, cfg.target, st, t, now);
      hide BarrierMayClear, Recoverable;
      StuckIdle(safe, st, s);
      KeptInv(safe, cfg.target, NOTHING.(clears := {t}), st, su);
      ClearedIdle(st, t, now, s);
      IdleShut(su, s);
      RefreshPlaceIdle(safe, su, cfg, 0, now, s);
      IdleShut(PlaceBatch(RefreshReservations(su, now), cfg, now), s);
    } else {
      hide Inv, HeartbeatSession;
      PlainHeartbeatShut(st, cfg, t, token, alive, now, s);
    }
  }

  lemma AcknowledgedIdle(st: Pool, t: nat, id: nat, success: bool, now: int, s: nat)
    requires Stuck(st, s) && st.sessions[s].started.Some? && t in st.sessions && t != s
    requires id in st.leases && st.leases[id].state.Releasing?
    ensures Idle(Acknowledged(st, t, id, success, now), s)
  {
  }

  lemma CompleteReleaseShut(safe: set<string>, st: Pool, cfg: Config, t: nat, token: string, id: nat, success: bool,
                            now: int, s: nat)
    requires Inv(safe, st) && Stuck(st, s)
    ensures Shut(CompleteRelease(st, cfg, t, token, id, success, now), s)
  {
    hide Inv, Kept, Ebbs, Idle, Stuck, Shut, RefreshReservations, PlaceBatch, PlaceNamed, RefreshSessions, Registered;
    StuckIdle(safe, st, s);
    IdleShut(st, s);
    if MayAcknowledge(st, t, token, id) {
      hide Acknowledged;
      StuckStarted(st, s);
      Elsewhere(st, s, id);
      var s1 := Acknowledged(st, t, id, success, now);
      AckStarted(safe, st, t, id);
      AcknowledgedKept(safe, 0, st, t, id, success, now);
      KeptInv(safe, 0, AckMay(t, id, success), st, s1);
      AcknowledgedIdle(st, t, id, success, now, s);
      AckRegistered(safe, st, t, id, success, now);
      var s2 := RefreshSessions(s1, {t});
      RefreshSessionsEbbs(safe, 0, s1, {t});
      IdleShut(s1, s);
      RefreshOther(s1, {t}, s);
      EbbIdle(safe, 0, s1, s2, s);
      RefreshIdle(safe, s2, now, s);
      IdleShut(RefreshReservations(s2, now), s);
      RefreshPlaceIdle(safe, RefreshReservations(s2, now), cfg, 0, now, s);
      IdleShut(PlaceBatch(RefreshReservations(RefreshReservations(s2, now), now), cfg, now), s);
    }
  }

  lemma StuckStarted(st: Pool, s: nat)
    requires Idle(st, s) && Stuck(st, s)
    ensures s in st.sessions && st.sessions[s].started.Some?
  {
  }

  lemma CloseSessionShut(st: Pool, cfg: Config, t: nat, token: string, success: bool, requeue: bool, fault: Fault,
                         now: int, s: nat)
    requires Stuck(st, s)
    ensures Shut(CloseSession(st, cfg, t, token, success, requeue, fault, now), s)
  {
    hide FailCohortsOn, Tainted, Vacated;
    if HostAuthorized(st, t, token) {
      var failed := FailCohortsOn(st, t, now);
      FailCohortsSessions(st, t, now);
      TaintedRows(failed, t, success);
      VacatedRest(Tainted(failed, t, success), cfg, t, !success && requeue, now);
    }
  }

  // ----- the reconciler -----

  lemma EmptyDrainsShut(st: Pool, s: nat)
    requires Stuck(st, s)
    ensures Shut(RefreshEmptyDrains(st), s)
  {
  }

  /** The Desktops of leases that hold no project and have no owner left here. */
  lemma NotAmong(st: Pool, ids: set<nat>, s: nat)
    requires LeaseRows(st.sessions, st.leases) && Stuck(st, s)
    requires forall id :: id in ids && id in st.leases ==> st.leases[id].state.Live()
    ensures s !in SessionsOf(st, ids)
  {
    forall id | id in ids && id in st.leases
      ensures st.leases[id].session != Some(s)
    {
      assert LeaseRow(st.sessions, st.leases[id]);
    }
  }

  lemma EndOrphansShut(st: Pool, now: int, s: nat)
    requires LeaseRows(st.sessions, st.leases) && Stuck(st, s)
    ensures Shut(EndOrphans(st, now), s)
  {
    var over := set id | id in st.leases && ClientOver(st, st.leases[id]);
    var owners := set id | id in over && OwnsProject(st.leases[id]);
    NotAmong(st, over - owners, s);
    hide LeaseRows, SessionsOf, ClientOver;
  }

  lemma RequeueStaleShut(st: Pool, now: int, s: nat)
    requires LeaseRows(st.sessions, st.leases) && Stuck(st, s)
    ensures Shut(RequeueStale(st, now), s)
  {
    NotAmong(st, StaleOffers(st, now), s);
    hide LeaseRows, SessionsOf, StaleOffers;
  }

  lemma SameShut(st: Pool, su: Pool, s: nat)
    requires Shut(st, s) && su.sessions == st.sessions
    ensures Shut(su, s)
  {
  }

  lemma BlockShut(st: Pool, which: set<nat>, now: int, s: nat)
    requires Shut(st, s)
    ensures Shut(BlockSessions(st, which, now), s)
  {
  }

  lemma RefreshOtherShut(st: Pool, which: set<nat>, s: nat)
    requires Shut(st, s) && s !in which
    ensures Shut(RefreshSessions(st, which), s)
  {
  }

  lemma QuarantineShut(st: Pool, which: set<nat>, now: int, s: nat)
    requires Shut(st, s)
    ensures Shut(QuarantineSessions(st, which, now), s)
  {
  }

  lemma ExpireLapsedShut(st: Pool, cfg: Config, now: int, s: nat)
    requires LeaseRows(st.sessions, st.leases) && Stuck(st, s)
    ensures Shut(ExpireLapsed(st, cfg, now), s)
  {
    var lapsed := set id | id in st.leases && Lapsed(cfg, st.leases[id], now);
    var waiting := set id | id in lapsed && (st.leases[id].state.Queued? || st.leases[id].state.Offered?);
    var closing := lapsed - waiting;
    var solving := set id | id in closing && st.leases[id].state.Active?;
    NotAmong(st, waiting, s);
    hide LeaseRows, SessionsOf, Lapsed, Shut, BlockSessions, RefreshSessions, QuarantineSessions;
    var s1 := CloseProjects(BlockSessions(st, SessionsOf(st, closing), now), closing, now);
    BlockShut(st, SessionsOf(st, closing), now, s);
    var s2 := CancelLeases(s1, waiting, Expired);
    assert s2.sessions == BlockSessions(st, SessionsOf(st, closing), now).sessions;
    SameShut(BlockSessions(st, SessionsOf(st, closing), now), s2, s);
    RefreshOtherShut(s2, SessionsOf(st, waiting), s);
    QuarantineShut(RefreshSessions(s2, SessionsOf(st, waiting)), SessionsOf(st, solving), now, s);
  }

  lemma RefreshEmptyIdle(safe: set<string>, st: Pool, now: int, s: nat)
    requires Inv(safe, st) && Idle(st, s)
    ensures Idle(RefreshEmptyDrains(st), s) && Inv(safe, RefreshEmptyDrains(st))
    ensures
      var su := RefreshEmptyDrains(RefreshReservations(st, now));
      Idle(su, s) && Inv(safe, su)
  {
    hide Inv, Ebbs, Idle, Stuck, Shut, RefreshEmptyDrains, RefreshReservations;
    RefreshEmptyDrainsEbbs(safe, 0, st);
    if Stuck(st, s) { EmptyDrainsShut(st, s); }
    EbbIdle(safe, 0, st, RefreshEmptyDrains(st), s);
    var mid := RefreshReservations(st, now);
    RefreshIdle(safe, st, now, s);
    RefreshEmptyDrainsEbbs(safe, 0, mid);
    if Stuck(mid, s) { EmptyDrainsShut(mid, s); }
    EbbIdle(safe, 0, mid, RefreshEmptyDrains(mid), s);
  }

  lemma PressureShut(st: Pool, which: set<nat>, now: int, s: nat)
    requires Stuck(st, s)
    ensures Shut(RetireStarts(st, which), s) && Shut(DrainPressured(st, which, now), s)
  {
  }

  lemma PrepareIdle(safe: set<string>, st: Pool, cfg: Config, execute: bool, orders: Orders, now: int, s: nat)
    requires Inv(safe, st) && Idle(st, s)
    ensures Idle(Prepare(st, cfg, execute, orders, now), s) && Inv(safe, Prepare(st, cfg, execute, orders, now))
  {
    hide Inv, Ebbs, Idle, Stuck, Shut, RefreshEmptyDrains, RefreshReservations, RetireStarts, DrainPressured;
    RefreshEmptyIdle(safe, st, now, s);
    RefreshEmptyIdle(safe, RefreshEmptyDrains(st), now, s);
    var s1 := RefreshEmptyDrains(RefreshReservations(RefreshEmptyDrains(st), now));
    var s2 := RetireStarts(s1, orders.blockedStarts);
    RetireStartsEbbs(safe, 0, s1, orders.blockedStarts);
    if Stuck(s1, s) { PressureShut(s1, orders.blockedStarts, now, s); }
    EbbIdle(safe, 0, s1, s2, s);
    var s3 := DrainPressured(s2, orders.pressured, now);
    DrainPressuredEbbs(safe, 0, s2, orders.pressured, now);
    if Stuck(s2, s) { PressureShut(s2, orders.pressured, now, s); }
    EbbIdle(safe, 0, s2, s3, s);
    RefreshEmptyIdle(safe, s3, now, s);
  }

  lemma RotateShut(st: Pool, cfg: Config, execute: bool, now: int, s: nat)
    requires Stuck(st, s)
    ensures Shut(Rotate(st, cfg, execute, now), s)
  {
    hide Coalesce;
  }

  lemma ReapLeasesIdle(safe: set<string>, st: Pool, cfg: Config, now: int, s: nat)
    requires Inv(safe, st) && Idle(st, s)
    ensures Idle(ReapLeases(st, cfg, now), s) && Inv(safe, ReapLeases(st, cfg, now))
  {
    hide Inv, Ebbs, Idle, Stuck, Shut, EndOrphans, RequeueStale, ExpireLapsed, LeaseRows;
    var s1 := EndOrphans(st, now);
    EndOrphansEbbs(safe, 0, st, now);
    InvLeaseRows(safe, st);
    if Stuck(st, s) { EndOrphansShut(st, now, s); }
    EbbIdle(safe, 0, st, s1, s);
    var s2 := RequeueStale(s1, now);
    RequeueStaleEbbs(safe, 0, s1, now);
    InvLeaseRows(safe, s1);
    if Stuck(s1, s) { RequeueStaleShut(s1, now, s); }
    EbbIdle(safe, 0, s1, s2, s);
    ExpireLapsedEbbs(safe, 0, s2, cfg, now);
    InvLeaseRows(safe, s2);
    if Stuck(s2, s) { ExpireLapsedShut(s2, cfg, now, s); }
    EbbIdle(safe, 0, s2, ExpireLapsed(s2, cfg, now), s);
  }

  lemma ReapSessionsShut(st: Pool, cfg: Config, now: int, s: nat)
    requires Shut(st, s)
    ensures Shut(ExpireSessions(st, cfg, now), s) && Shut(LoseReleases(st, cfg, now), s)
    ensures Shut(ExpireStarts(st, cfg, now), s) && Shut(RecycleAllocations(st, cfg, now), s)
    ensures Shut(ReapUnreachable(st, cfg, now), s)
  {
    hide ReleaseOld, Unreachable, LastSeen, Coalesce, DrainSince;
  }

  lemma ReapSessionsIdle(safe: set<string>, st: Pool, cfg: Config, now: int, s: nat)
    requires Inv(safe, st) && Idle(st, s)
    ensures Idle(ReapSessions(st, cfg, now), s) && Inv(safe, ReapSessions(st, cfg, now))
  {
    hide Inv, Ebbs, Idle, Stuck, Shut, ExpireSessions, LoseReleases, ExpireStarts, RecycleAllocations, ReapUnreachable;
    var s1 := ExpireSessions(st, cfg, now);
    var s2 := LoseReleases(s1, cfg, now);
    var s3 := ExpireStarts(s2, cfg, now);
    var s4 := RecycleAllocations(s3, cfg, now);
    IdleShut(st, s);
    ReapSessionsShut(st, cfg, now, s);
    ReapSessionsShut(s1, cfg, now, s);
    ReapSessionsShut(s2, cfg, now, s);
    ReapSessionsShut(s3, cfg, now, s);
    ReapSessionsShut(s4, cfg, now, s);
    ReapSessionsEbbs(safe, 0, st, cfg, now);
    EbbIdle(safe, 0, st, ReapSessions(st, cfg, now), s);
  }

  lemma RestoreShut(st: Pool, execute: bool, now: int, s: nat)
    requires Stuck(st, s)
    ensures Shut(Restore(st, execute, now), s)
  {
    hide Restorable, Coalesce;
  }

  lemma {:induction false} AddSessionsShut(st: Pool, xs: seq<Session>, s: nat)
    requires Shut(st, s)
    ensures Shut(AddSessions(st, xs), s)
    decreases |xs|
  {
    if xs != [] {
      AddSessionsShut(AddSession(st, xs[0]), xs[1..], s);
    }
  }

  lemma ApplyShut(st: Pool, cfg: Config, orders: Orders, now: int, s: nat)
    requires Shut(st, s)
    ensures Shut(Apply(st, cfg, orders, now), s)
  {
    hide NothingHeld, AddSessions, Opened;
    var drained := DrainSurplus(DrainRebalanced(st, orders.rebalance, now), orders.surplus, now);
    AddSessionsShut(drained, seq(|orders.opening|, i requires 0 <= i < |orders.opening| => Opened(orders.opening[i], now)), s);
  }

  lemma ReapedIdle(safe: set<string>, st: Pool, cfg: Config, execute: bool, orders: Orders, now: int, s: nat)
    requires Inv(safe, st) && Idle(st, s)
    ensures
      var ready := Restore(ReapSessions(ReapLeases(Rotate(Prepare(st, cfg, execute, orders, now), cfg, execute, now),
                                                   cfg, now), cfg, now), execute, now);
      Idle(ready, s) && Inv(safe, ready)
  {
    hide Inv, Ebbs, Idle, Stuck, Shut, Prepare, Rotate, ReapLeases, ReapSessions, Restore;
    var s1 := Prepare(st, cfg, execute, orders, now);
    PrepareIdle(safe, st, cfg, execute, orders, now, s);
    var s2 := Rotate(s1, cfg, execute, now);
    RotateEbbs(safe, 0, s1, cfg, execute, now);
    if Stuck(s1, s) { RotateShut(s1, cfg, execute, now, s); }
    EbbIdle(safe, 0, s1, s2, s);
    ReapLeasesIdle(safe, s2, cfg, now, s);
    var s3 := ReapLeases(s2, cfg, now);
    ReapSessionsIdle(safe, s3, cfg, now, s);
    var s4 := ReapSessions(s3, cfg, now);
    RestoreEbbs(safe, 0, s4, execute, now);
    if Stuck(s4, s) { RestoreShut(s4, execute, now, s); }
    EbbIdle(safe, 0, s4, Restore(s4, execute, now), s);
  }

  lemma ReconcileShut(safe: set<string>, st: Pool, cfg: Config, execute: bool, orders: Orders, now: int, s: nat)
    requires Inv(safe, st) && Idle(st, s)
    ensures Shut(Reconcile(st, cfg, execute, orders, now), s)
  {
    hide Inv, Idle, Shut, Prepare, Rotate, ReapLeases, ReapSessions, Restore, PlaceBatch, PlaceNamed, Apply;
    var ready := Restore(ReapSessions(ReapLeases(Rotate(Prepare(st, cfg, execute, orders, now), cfg, execute, now),
                                                 cfg, now), cfg, now), execute, now);
    ReapedIdle(safe, st, cfg, execute, orders, now, s);
    IdleShut(ready, s);
    PlaceIdle(safe, ready, cfg, 0, now, s);
    IdleShut(PlaceBatch(ready, cfg, now), s);
    ApplyShut(PlaceBatch(ready, cfg, now), cfg, orders, now, s);
  }

  // ----- every step, and runs -----

  // The steps that write single rows never clear a seal.

  lemma CompletePipelineShut(st: Pool, cfg: Config, id: nat, token: string, wave: nat, now: int, s: nat)
    requires Shut(st, s)
    ensures Shut(CompletePipeline(st, cfg, id, token, wave, now), s)
  {
  }

  lemma SolverTimeoutShut(st: Pool, id: nat, t: nat, a: nat, until: int, fault: Fault, now: int, s: nat)
    requires Shut(st, s)
    ensures Shut(SolverTimeout(st, id, t, a, until, fault, now), s)
  {
    var mid := CloseTimedOut(st, id, now);
    assert Shut(mid, s);
    hide CloseTimedOut;
    assert Shut(QuarantineSeen(mid, t, until, fault, now), s);
    hide QuarantineSeen;
  }

  lemma SuspectTransportShut(st: Pool, t: nat, s: nat)
    requires Shut(st, s)
    ensures Shut(SuspectTransport(st, t), s)
  {
  }

  lemma ReportDeathShut(st: Pool, t: nat, fault: Fault, now: int, s: nat)
    requires Shut(st, s)
    ensures Shut(ReportDeath(st, t, fault, now), s)
  {
    hide Coalesce;
  }

  lemma SessionFaultShut(st: Pool, t: nat, token: string, confirmed: bool, fault: Fault, now: int, s: nat)
    requires Shut(st, s)
    ensures Shut(SessionFault(st, t, token, confirmed, fault, now), s)
  {
    hide Coalesce, SupervisedSolve;
  }

  lemma ReapDeadSessionShut(st: Pool, t: nat, seen: Session, s: nat)
    requires Shut(st, s)
    ensures Shut(ReapDeadSession(st, t, seen), s)
  {
  }

  lemma RequestDrainShut(st: Pool, now: int, s: nat)
    requires Shut(st, s)
    ensures Shut(RequestDrain(st, None, now), s)
  {
    hide Coalesce;
  }

  lemma StartRowShut(safe: set<string>, st: Pool, t: nat, allocation: nat, node: string, host: string, endpoint: string,
                     process: string, profile: string, token: string, enabled: bool, now: int, s: nat)
    requires Inv(safe, st) && Stuck(st, s)
    ensures Shut(ClaimStart(st, t, allocation, node, host, now), s) && Shut(FailStart(st, t, host), s)
    ensures Shut(RegisterSession(st, t, host, endpoint, process, profile, token, enabled, now), s)
  {
    hide Inv, Coalesce;
    if t in st.sessions && MayRegister(st, t, host, profile) {
      hide MayRegister;
      RegisterEffect(st, t, host, endpoint, process, profile, token, enabled, now);
      hide RegisterSession;
    }
  }

  lemma SchedulerShut(st: Pool, tasks: Tasks, allocations: Allocations, s: nat)
    requires Shut(st, s)
    ensures Shut(st.(tasks := tasks, allocations := allocations), s)
  {
  }

  lemma StepShut(safe: set<string>, st: Pool, e: Event, s: nat)
    requires Inv(safe, st) && Stuck(st, s)
    ensures Shut(Next(safe, st, e), s)
  {
    hide Inv, Idle, Stuck, Shut, LeaseRows;
    hide RequestLease, CreateReservation, PrepareTask, HeartbeatLease, AcceptLease, ActivateLease, RequestSolvePermit;
    hide CancelLease, HeartbeatSession, CompleteRelease, CloseSession, Reconcile;
    hide CompletePipeline, SolverTimeout, SuspectTransport, ReportDeath, ClaimStart, RegisterSession, FailStart;
    hide SessionFault, ReapDeadSession, RequestDrain;
    StuckIdle(safe, st, s);
    IdleShut(st, s);
    StuckStarted(st, s);
    InvLeaseRows(safe, st);
    match e.step
    case RequestLeaseStep(w) =>
      RequestLeaseIdle(safe, st, e.cfg, w, e.now, s);
      IdleShut(RequestLease(st, e.cfg, w, e.now), s);
    case CreateReservationStep(name, t, g, profile, cohort, ttl) =>
      CreateReservationShut(safe, st, e.cfg, name, t, g, profile, cohort, ttl, e.now, s);
    case PrepareTaskStep(i, route, chosen) => PrepareTaskShut(safe, st, e.cfg, i, route, chosen, e.now, s);
    case HeartbeatLeaseStep(id, token) => HeartbeatLeaseShut(safe, st, e.cfg, id, token, e.now, s);
    case AcceptLeaseStep(id, token) => AcceptLeaseShut(st, e.cfg, id, token, e.now, s);
    case ActivateLeaseStep(id, token, seenState, seenSession) =>
      ActivateShut(safe, st, e.cfg, id, token, seenState, seenSession, e.now, s);
    case RequestSolvePermitStep(id, token, underfilled) =>
      PermitShut(safe, st, e.cfg, id, token, underfilled, e.now, s);
    case CancelLeaseStep(id, token) => CancelLeaseShut(safe, st, id, token, e.now, s);
    case HeartbeatSessionStep(t, token, alive) => HeartbeatSessionShut(safe, st, e.cfg, t, token, alive, e.now, s);
    case CompleteReleaseStep(t, token, id, success) =>
      CompleteReleaseShut(safe, st, e.cfg, t, token, id, success, e.now, s);
    case CloseSessionStep(t, token, success, requeue, fault) =>
      CloseSessionShut(st, e.cfg, t, token, success, requeue, fault, e.now, s);
    case ReconcileStep(execute, orders) => ReconcileShut(safe, st, e.cfg, execute, orders, e.now, s);
    case CompletePipelineStep(id, token, wave) => CompletePipelineShut(st, e.cfg, id, token, wave, e.now, s);
    case SolverTimeoutStep(id, t, a, until, fault) => SolverTimeoutShut(st, id, t, a, until, fault, e.now, s);
    case SuspectTransportStep(t) => SuspectTransportShut(st, t, s);
    case ReportDeathStep(t, fault) => ReportDeathShut(st, t, fault, e.now, s);
    case ClaimStartStep(t, a, node, host) => StartRowShut(safe, st, t, a, node, host, "", "", "", "", true, e.now, s);
    case RegisterSessionStep(t, host, endpoint, process, profile, token, enabled) =>
      StartRowShut(safe, st, t, 0, "", host, endpoint, process, profile, token, enabled, e.now, s);
    case FailStartStep(t, host) => StartRowShut(safe, st, t, 0, "", host, "", "", "", "", true, e.now, s);
    case SessionFaultStep(t, token, confirmed, fault) => SessionFaultShut(st, t, token, confirmed, fault, e.now, s);
    case ReapDeadSessionStep(t, seen) => ReapDeadSessionShut(st, t, seen, s);
    case RequestDrainStep => RequestDrainShut(st, e.now, s);
    case SchedulerStep(tasks, allocations) => SchedulerShut(st, tasks, allocations, s);
  }

  lemma SealedNoEntry(safe: set<string>, target: int, may: May, st: Pool, su: Pool, s: nat)
    requires Progress(safe, target, may, st, su) && s in st.sessions && st.sessions[s].isSealed
    requires s in su.sessions && su.sessions[s].isSealed
    ensures NoEntry(st, su, s)
  {
    hide Inv, Evolves, Owned, Quiet, Lifecycle, Rests, Admits, BarrierHolds, NoEntry, Wave, Waiting, MayOverlap, FromOpen;
    assert BatchClosed(st, su, s) || Grants(safe, st, su, s);
  }

  lemma ProgressStuck(safe: set<string>, target: int, may: May, st: Pool, su: Pool, s: nat)
    requires Progress(safe, target, may, st, su) && Stuck(st, s) && Shut(su, s) && su.sessions[s].state.Assignable()
    ensures Stuck(su, s)
  {
    hide Progress;
    SealedNoEntry(safe, target, may, st, su, s);
    forall id | id in su.leases
      ensures !Holder(su.leases[id], s)
    {
      assert id !in Holders(st.leases, s);
      assert id !in Holders(su.leases, s);
    }
  }

  /** The Desktop is assignable before and after every step of the run. */
  predicate AssignableThroughout(safe: set<string>, st: Pool, es: seq<Event>, s: nat)
    decreases |es|
  {
    && s in st.sessions && st.sessions[s].state.Assignable()
    && (es == [] || AssignableThroughout(safe, Next(safe, st, es[0]), es[1..], s))
  }

  /** An empty Desktop that kept its seal keeps it, and stays empty, until it stops being
      assignable: it is of no use to anybody. */
  lemma {:induction false} StuckRun(safe: set<string>, st: Pool, es: seq<Event>, s: nat)
    requires Inv(safe, st) && FairRun(safe, st, es) && Stuck(st, s) && AssignableThroughout(safe, st, es, s)
    ensures Stuck(Run(safe, st, es), s)
    decreases |es|
  {
    hide Inv, Next, Fair, Licence, Progress, Stuck, Shut;
    if es != [] {
      var su := Next(safe, st, es[0]);
      StepShut(safe, st, es[0], s);
      StepProgress(safe, st, es[0]);
      ProgressInv(safe, es[0].cfg.target, Licence(st, es[0]), st, su);
      ProgressStuck(safe, es[0].cfg.target, Licence(st, es[0]), st, su, s);
      StuckRun(safe, su, es[1..], s);
    }
  }

  // ----- the last owner leaves -----

  /** A Desktop that drains or is unhealthy keeps its row through refresh and placement,
      but for the barrier. */
  predicate Frozen(st: Pool, su: Pool, s: nat) {
    && s in st.sessions && s in su.sessions
    && su.sessions[s].state == st.sessions[s].state && su.sessions[s].isSealed == st.sessions[s].isSealed
  }

  predicate Inert(st: Pool, s: nat) {
    s in st.sessions && (st.sessions[s].state.Draining? || st.sessions[s].state.Unhealthy?)
  }

  lemma RefreshFrozen(st: Pool, now: int, s: nat)
    requires Inert(st, s)
    ensures Frozen(st, RefreshReservations(st, now), s)
  {
    var s1 := FailCohorts(st, TerminalSiblingKeys(st), true, now);
    CohortsFrozen(st, TerminalSiblingKeys(st), true, now, s);
    var s2 := ExpireCohorts(s1, ExpiredKeys(s1, now), now);
    CohortsFrozen(s1, ExpiredKeys(s1, now), true, now, s);
    var s3 := ReleaseFinished(s2);
    assert Frozen(s2, s3, s);
    hide FailCohorts, ExpireCohorts, ReleaseFinished, TerminalSiblingKeys, ExpiredKeys;
    InvalidFrozen(s3, now, s);
    hide FailInvalidTargets;
  }

  lemma CohortsFrozen(st: Pool, keys: set<CohortKey>, settle: bool, now: int, s: nat)
    requires Inert(st, s)
    ensures Frozen(st, FailCohorts(st, keys, settle, now), s) && Frozen(st, ExpireCohorts(st, keys, now), s)
  {
    hide CohortLeases, SessionsOf, HasPermit, OwnsProject;
  }

  lemma InvalidFrozen(st: Pool, now: int, s: nat)
    requires Inert(st, s)
    ensures Frozen(st, FailInvalidTargets(st, now), s)
  {
    hide InvalidKeys, CohortLeases;
  }

  lemma PlaceOneFrozen(st: Pool, cfg: Config, id: nat, now: int, s: nat)
    requires Inert(st, s)
    ensures Frozen(st, PlaceOne(st, cfg, id, now), s)
  {
    hide LeaseFits, PinClaimed, MayPlace;
    if id in st.leases && MayPlace(st, cfg, id, now) && FittingSessions(st, cfg, id, now) != {} {
      var t := First(st.leases, FittingSessions(st, cfg, id, now));
      assert t in FittingSessions(st, cfg, id, now) && t != s;
      SeatEffect(st, cfg, id, t, now);
      hide FittingSessions, Seat;
    }
  }

  lemma {:induction false} PlaceEachFrozen(st: Pool, cfg: Config, ids: seq<nat>, now: int, s: nat)
    requires Inert(st, s)
    ensures Frozen(st, PlaceEach(st, cfg, ids, now), s)
    decreases |ids|
  {
    hide PlaceOne;
    if ids != [] {
      PlaceOneFrozen(st, cfg, ids[0], now, s);
      PlaceEachFrozen(PlaceOne(st, cfg, ids[0], now), cfg, ids[1..], now, s);
    }
  }

  lemma AfterAckFrozen(st: Pool, cfg: Config, now: int, s: nat)
    requires Inert(st, s)
    ensures
      var su := RefreshReservations(st, now);
      Frozen(st, if cfg.operational then PlaceBatch(RefreshReservations(su, now), cfg, now) else su, s)
  {
    hide RefreshReservations, PlaceEach, Batch, Eligible;
    var su := RefreshReservations(st, now);
    RefreshFrozen(st, now, s);
    if cfg.operational {
      var sv := RefreshReservations(su, now);
      RefreshFrozen(su, now, s);
      var batch := Batch(Eligible(sv, cfg, now), sv.cursor);
      PlaceEachFrozen(sv.(cursor := NextCursor(batch)), cfg, batch, now, s);
    }
  }

  /** The row of the Desktop right after the confirmation and its state refresh. */
  lemma LastOwnerRow(st: Pool, s: nat, id: nat, success: bool, now: int)
    requires s in st.sessions && id in st.leases && Holders(st.leases, s) == {id} && st.sessions[s].isSealed
    requires !st.sessions[s].state.Starting? && !st.sessions[s].state.Over()
    ensures
      var su := RefreshSessions(Acknowledged(st, s, id, success, now), {s});
      && s in su.sessions && NoHolder(su.leases, s)
      && (success && st.sessions[s].state.Assignable() ==> !su.sessions[s].isSealed)
      && (!(success && st.sessions[s].state.Assignable()) ==> su.sessions[s].isSealed && Inert(su, s))
  {
    forall i | i in st.leases && i != id
      ensures !Holder(st.leases[i], s)
    {
      assert i !in Holders(st.leases, s);
    }
  }

  /** The confirmation transaction for the last owner clears the seal exactly when the
      Desktop is assignable and the close succeeded; otherwise the seal stays on an empty
      Desktop. */
  lemma LastOwnerClearsSeal(safe: set<string>, st: Pool, cfg: Config, s: nat, token: string, id: nat, success: bool, now: int)
    requires Inv(safe, st) && MayAcknowledge(st, s, token, id)
    requires st.sessions[s].isSealed && Holders(st.leases, s) == {id}
    ensures
      var su := CompleteRelease(st, cfg, s, token, id, success, now);
      s in su.sessions && (!su.sessions[s].isSealed <==> success && st.sessions[s].state.Assignable())
  {
    HeldByNonTerminal(safe, st, id);
    LeasedRegistered(safe, st, id);
    LastOwnerRow(st, s, id, success, now);
    hide Inv, Kept, Ebbs, Holders, NoHolder, RefreshReservations, PlaceBatch;
    var s1 := Acknowledged(st, s, id, success, now);
    var s2 := RefreshSessions(s1, {s});
    hide RefreshSessions;
    AckStarted(safe, st, s, id);
    AcknowledgedKept(safe, cfg.target, st, s, id, success, now);
    KeptInv(safe, cfg.target, AckMay(s, id, success), st, s1);
    AckRegistered(safe, st, s, id, success, now);
    hide Acknowledged, Registered;
    if success && st.sessions[s].state.Assignable() {
      RefreshSessionsEbbs(safe, cfg.target, s1, {s});
      EbbsInv(safe, cfg.target, s1, s2);
      RefreshedKept(safe, s2, cfg, now);
      StaysUnsealed(safe, cfg.target, s2, CompleteRelease(st, cfg, s, token, id, success, now), s);
    } else {
      AfterAckFrozen(s2, cfg, now, s);
    }
  }

  lemma RefreshedKept(safe: set<string>, st: Pool, cfg: Config, now: int)
    requires Inv(safe, st)
    ensures
      var su := RefreshReservations(st, now);
      Kept(safe, cfg.target, NOTHING, st, if cfg.operational then PlaceBatch(RefreshReservations(su, now), cfg, now) else su)
  {
    hide Inv, Kept, Ebbs, RefreshReservations, PlaceBatch;
    var su := RefreshReservations(st, now);
    RefreshReservationsEbbs(safe, cfg.target, st, now);
    EbbKept(safe, cfg.target, st, su);
    EbbsInv(safe, cfg.target, st, su);
    RefreshThenPlace(safe, su, cfg, now);
    KeptChain(safe, cfg.target, st, su, PlaceBatch(RefreshReservations(su, now), cfg, now));
  }

  lemma StaysUnsealed(safe: set<string>, target: int, st: Pool, su: Pool, s: nat)
    requires Kept(safe, target, NOTHING, st, su) && s in st.sessions && !st.sessions[s].isSealed
    ensures s in su.sessions && !su.sessions[s].isSealed
  {
    hide Inv, Owned, Quiet, Lifecycle, Rests, Arms, Admits, BarrierHolds, Barred, WavesFrozen;
    assert BatchClosed(st, su, s);
  }
}
