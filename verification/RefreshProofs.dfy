/** The maintenance updates are calm and let nobody in. */
module PoolRefreshProofs {
  import opened PoolRows
  import opened PoolInvariant
  import opened PoolSettle
  import opened PoolCalm
  import opened PoolRefresh

  lemma SelfSettles(st: Pool)
    ensures Settles(st, st) && Firm(st, st) && Quiet(NOTHING, st, st) && EndsEmpty({}, st, st)
  {
  }

  lemma EbbSelf(safe: set<string>, target: int, st: Pool)
    requires Inv(safe, st)
    ensures Ebbs(safe, target, st, st)
  {
    hide *;
    SelfSettles(st);
    SettleEbbs(safe, target, st, st);
  }

  /** An update of session rows alone. */
  lemma SessionsOnlyEbbs(safe: set<string>, target: int, st: Pool, su: Pool)
    requires Inv(safe, st) && su.leases == st.leases && su.reservations == st.reservations
    requires SessionsSettle(st.sessions, su.sessions, st.leases) && FirmSessions(st, su)
    ensures Ebbs(safe, target, st, su)
  {
    hide Inv, Calm, Barred, Arms, Shrinks, FirmSessions, SessionsSettle;
    assert Quiet(NOTHING, st, su);
    assert EndsEmpty({}, st, su) by { SessionsEndEmpty(st, su); }
    assert Firm(st, su);
    assert Settles(st, su) by { LeasesAlone(st, su); }
    hide EndsEmpty, Quiet;
    SettleEbbs(safe, target, st, su);
  }

  lemma SessionsEndEmpty(st: Pool, su: Pool)
    requires SessionsSettle(st.sessions, su.sessions, st.leases)
    ensures EndsEmpty({}, st, su)
  {
    forall s | s in st.sessions && s in su.sessions && su.sessions[s].state.Over()
      ensures st.sessions[s].state.Over() || NoHolder(st.leases, s)
    {
      assert SessionMove(st.sessions[s], su.sessions[s], NoHolder(st.leases, s));
    }
  }

  lemma LeasesAlone(st: Pool, su: Pool)
    requires su.leases == st.leases && su.reservations == st.reservations
    requires SessionsSettle(st.sessions, su.sessions, st.leases)
    ensures Settles(st, su)
  {
    hide SessionsSettle;
  }

  /** A calm update of one session row. */
  predicate RowEbbs(x: Session, y: Session, empty: bool) {
    SessionMove(x, y, empty) && FirmSession(x, y) && RestSession(x, y) && HeldSession(x, y)
  }

  lemma RowsEbb(safe: set<string>, target: int, st: Pool, su: Pool)
    requires Inv(safe, st) && su.leases == st.leases && su.reservations == st.reservations
    requires su.sessions.Keys == st.sessions.Keys
    requires forall s :: s in st.sessions ==> RowEbbs(st.sessions[s], su.sessions[s], NoHolder(st.leases, s))
    ensures Ebbs(safe, target, st, su)
  {
    hide Inv, Ebbs, SessionMove, FirmSession, RestSession, HeldSession;
    SessionsOnlyEbbs(safe, target, st, su);
  }

  /** A Desktop that is running, or only late, may drain or be called unhealthy. */
  predicate Subsides(x: Session, y: Session) {
    || (y.state == x.state && y.fault == x.fault)
    || ((x.state.Assignable() || x.state.Draining? || (x.state.Unhealthy? && x.fault.HeartbeatTimeout?))
        && (y.state == x.state || y.state.Draining? || y.state.Unhealthy?))
    || (x.state.Starting? && y.state.Unhealthy? && y.fault.StartAckTimeout?)
  }

  lemma RowSubsides(x: Session, y: Session, empty: bool)
    requires y == x.(state := y.state, fault := y.fault, drainAt := y.drainAt, quarantine := y.quarantine,
                     quarantineUntil := y.quarantineUntil)
    requires Subsides(x, y) && (y.quarantine == x.quarantine || !y.quarantine.NoQuarantine?)
    ensures RowEbbs(x, y, empty)
  {
  }

  /** An update of one session row. */
  lemma OneSessionEbbs(safe: set<string>, target: int, st: Pool, s: nat, x: Session)
    requires Inv(safe, st) && s in st.sessions
    requires SessionMove(st.sessions[s], x, NoHolder(st.leases, s))
    requires FirmSession(st.sessions[s], x) && RestSession(st.sessions[s], x) && HeldSession(st.sessions[s], x)
    ensures Ebbs(safe, target, st, st.(sessions := st.sessions[s := x]))
  {
    hide Inv, Ebbs;
    SessionsOnlyEbbs(safe, target, st, st.(sessions := st.sessions[s := x]));
  }

  lemma OneLeaseSettles(st: Pool, id: nat, m: Lease)
    requires id in st.leases && LeaseMove(st.leases[id], m, Gone(st.sessions, st.leases[id]))
    requires m.state.Queued? ==> st.leases[id].state.Queued?
    ensures Settles(st, st.(leases := st.leases[id := m]))
  {
    hide LeaseMove;
    assert forall i :: i in st.leases && i != id ==> st.leases[id := m][i] == st.leases[i];
    SameRows(st, id, m);
  }

  lemma SameRows(st: Pool, id: nat, m: Lease)
    requires id in st.leases && (m.state.Queued? ==> st.leases[id].state.Queued?)
    ensures SessionsSettle(st.sessions, st.sessions, st.leases[id := m])
    ensures ReservationsSettle(st.reservations, st.reservations, st.leases, st.leases[id := m])
    ensures forall i :: i in st.leases && i != id ==> LeaseMove(st.leases[i], st.leases[i], Gone(st.sessions, st.leases[i]))
  {
  }

  lemma OneLeaseFirm(st: Pool, id: nat, m: Lease)
    requires id in st.leases && FirmLease(st.sessions, st.leases[id], m)
    ensures Firm(st, st.(leases := st.leases[id := m]))
  {
  }

  /** An update of one lease row. */
  lemma OneLeaseEbbs(safe: set<string>, target: int, st: Pool, id: nat, m: Lease)
    requires Inv(safe, st) && id in st.leases
    requires LeaseMove(st.leases[id], m, Gone(st.sessions, st.leases[id]))
    requires FirmLease(st.sessions, st.leases[id], m) && (m.state.Queued? ==> st.leases[id].state.Queued?)
    requires (m.state.Attaching? ==> st.leases[id].state.Attaching?) && (m.state.Released? ==> st.leases[id].state.Released?)
    ensures Ebbs(safe, target, st, st.(leases := st.leases[id := m]))
  {
    hide Inv, Ebbs;
    OneLeaseSettles(st, id, m);
    OneLeaseFirm(st, id, m);
    assert EndsEmpty({}, st, st.(leases := st.leases[id := m]));
    hide Settles, Firm, LeaseMove, FirmLease, EndsEmpty;
    SettleEbbs(safe, target, st, st.(leases := st.leases[id := m]));
  }

  /** The refresh is meant for Desktops that were registered. */
  ghost predicate Registered(st: Pool, which: set<nat>) {
    forall s :: s in which && s in st.sessions ==> !st.sessions[s].state.Starting?
  }

  /** A Desktop that some lease or reservation names was registered. */
  lemma LeasedRegistered(safe: set<string>, st: Pool, id: nat)
    requires Inv(safe, st) && id in st.leases && st.leases[id].session.Some?
    ensures st.leases[id].session.value in st.sessions && Registered(st, {st.leases[id].session.value})
  {
    assert LeaseRow(st.sessions, st.leases[id]);
  }

  lemma ReservedRegistered(safe: set<string>, st: Pool, r: nat)
    requires Inv(safe, st) && r in st.reservations
    ensures st.reservations[r].session in st.sessions && !st.sessions[st.reservations[r].session].state.Starting?
  {
    assert ReservationRow(st.sessions, st.leases, r, st.reservations[r]);
  }

  lemma RefreshRow(x: Session, empty: bool)
    requires !x.state.Starting?
    ensures
      var y := Refreshed(x, empty);
      SessionMove(x, y, empty) && FirmSession(x, y) && RestSession(x, y) && HeldSession(x, y)
  {
  }

  lemma RefreshSessionsEbbs(safe: set<string>, target: int, st: Pool, which: set<nat>)
    requires Inv(safe, st) && Registered(st, which)
    ensures Ebbs(safe, target, st, RefreshSessions(st, which))
  {
    hide Inv, Ebbs, Refreshed, SessionMove, FirmSession, RestSession, HeldSession;
    var su := RefreshSessions(st, which);
    forall s | s in st.sessions
      ensures SessionMove(st.sessions[s], su.sessions[s], NoHolder(st.leases, s))
      ensures FirmSession(st.sessions[s], su.sessions[s])
      ensures RestSession(st.sessions[s], su.sessions[s]) && HeldSession(st.sessions[s], su.sessions[s])
    {
      if s in which {
        RefreshRow(st.sessions[s], NoHolder(st.leases, s));
      } else {
        SameRow(st.sessions[s], NoHolder(st.leases, s));
      }
    }
    SessionsOnlyEbbs(safe, target, st, su);
  }

  lemma SameRow(x: Session, empty: bool)
    ensures SessionMove(x, x, empty) && FirmSession(x, x) && RestSession(x, x) && HeldSession(x, x)
  {
  }

  lemma BlockRow(x: Session, now: int, empty: bool)
    ensures
      var y := x.(blockedAt := Coalesce(x.blockedAt, now));
      SessionMove(x, y, empty) && FirmSession(x, y) && RestSession(x, y) && HeldSession(x, y)
  {
  }

  lemma BlockSessionsEbbs(safe: set<string>, target: int, st: Pool, which: set<nat>, now: int)
    requires Inv(safe, st)
    ensures Ebbs(safe, target, st, BlockSessions(st, which, now))
  {
    hide Inv, Ebbs, Coalesce, SessionMove, FirmSession, RestSession, HeldSession;
    var su := BlockSessions(st, which, now);
    forall s | s in st.sessions
      ensures SessionMove(st.sessions[s], su.sessions[s], NoHolder(st.leases, s))
      ensures FirmSession(st.sessions[s], su.sessions[s])
      ensures RestSession(st.sessions[s], su.sessions[s]) && HeldSession(st.sessions[s], su.sessions[s])
    {
      BlockRow(st.sessions[s], now, NoHolder(st.leases, s));
      SameRow(st.sessions[s], NoHolder(st.leases, s));
    }
    SessionsOnlyEbbs(safe, target, st, su);
  }

  /** Every listed lease that owns a project is on a Desktop whose barrier is armed. */
  ghost predicate AllBlocked(st: Pool, ids: set<nat>) {
    forall id :: id in ids && id in st.leases && st.leases[id].state.Holds() ==>
      BehindBarrier(st.sessions, st.leases[id].(state := Releasing))
  }

  lemma ReleaseLeasesFirm(st: Pool, ids: set<nat>, now: int)
    requires AllBlocked(st, ids)
    ensures Firm(st, ReleaseLeases(st, ids, now))
  {
    var su := ReleaseLeases(st, ids, now);
    forall id | id in st.leases
      ensures FirmLease(su.sessions, st.leases[id], su.leases[id])
    {
      if id in ids && st.leases[id].state.Holds() {
        assert BehindBarrier(st.sessions, st.leases[id].(state := Releasing));
      }
    }
  }

  lemma ReleaseLeasesSettles(st: Pool, ids: set<nat>, now: int)
    ensures var su := ReleaseLeases(st, ids, now); Settles(st, su) && Quiet(NOTHING, st, su) && EndsEmpty({}, st, su)
  {
  }

  lemma ReleaseLeasesEbbs(safe: set<string>, target: int, st: Pool, ids: set<nat>, now: int)
    requires Inv(safe, st) && AllBlocked(st, ids)
    ensures Ebbs(safe, target, st, ReleaseLeases(st, ids, now))
  {
    hide *;
    ReleaseLeasesSettles(st, ids, now);
    ReleaseLeasesFirm(st, ids, now);
    SettleEbbs(safe, target, st, ReleaseLeases(st, ids, now));
  }

  /** Blocking the Desktops of the listed leases puts them all behind barriers. */
  lemma SessionsOfBlocked(st: Pool, ids: set<nat>, which: set<nat>, now: int)
    requires LeaseRows(st.sessions, st.leases) && SessionsOf(st, ids) <= which
    ensures AllBlocked(BlockSessions(st, which, now), ids)
  {
    var su := BlockSessions(st, which, now);
    forall id | id in ids && id in su.leases && su.leases[id].state.Holds()
      ensures BehindBarrier(su.sessions, su.leases[id].(state := Releasing))
    {
      assert LeaseRow(st.sessions, st.leases[id]);
      assert st.leases[id].session.value in SessionsOf(st, ids);
    }
  }

  lemma InvLeaseRows(safe: set<string>, st: Pool)
    requires Inv(safe, st)
    ensures LeaseRows(st.sessions, st.leases)
  {
  }

  lemma BlockThenRelease(safe: set<string>, target: int, st: Pool, which: set<nat>, ids: set<nat>, now: int)
    requires Inv(safe, st) && SessionsOf(st, ids) <= which
    ensures Ebbs(safe, target, st, ReleaseLeases(BlockSessions(st, which, now), ids, now))
  {
    hide *;
    var su := BlockSessions(st, which, now);
    BlockSessionsEbbs(safe, target, st, which, now);
    InvLeaseRows(safe, st);
    SessionsOfBlocked(st, ids, which, now);
    EbbsInv(safe, target, st, su);
    ReleaseLeasesEbbs(safe, target, su, ids, now);
    EbbChain(safe, target, st, su, ReleaseLeases(su, ids, now));
  }

  lemma FailLeasesSettles(st: Pool, ids: set<nat>)
    ensures Settles(st, FailLeases(st, ids))
  {
  }

  lemma FailLeasesFirm(st: Pool, ids: set<nat>)
    ensures var su := FailLeases(st, ids); Firm(st, su) && Quiet(NOTHING, st, su) && EndsEmpty({}, st, su)
  {
  }

  lemma FailLeasesEbbs(safe: set<string>, target: int, st: Pool, ids: set<nat>)
    requires Inv(safe, st)
    ensures Ebbs(safe, target, st, FailLeases(st, ids))
  {
    hide *;
    FailLeasesSettles(st, ids);
    FailLeasesFirm(st, ids);
    SettleEbbs(safe, target, st, FailLeases(st, ids));
  }

  lemma ExpireLeasesSettles(st: Pool, ids: set<nat>)
    ensures Settles(st, ExpireLeases(st, ids))
  {
  }

  lemma ExpireLeasesFirm(st: Pool, ids: set<nat>)
    ensures var su := ExpireLeases(st, ids); Firm(st, su) && Quiet(NOTHING, st, su) && EndsEmpty({}, st, su)
  {
  }

  lemma ExpireLeasesEbbs(safe: set<string>, target: int, st: Pool, ids: set<nat>)
    requires Inv(safe, st)
    ensures Ebbs(safe, target, st, ExpireLeases(st, ids))
  {
    hide *;
    ExpireLeasesSettles(st, ids);
    ExpireLeasesFirm(st, ids);
    SettleEbbs(safe, target, st, ExpireLeases(st, ids));
  }

  lemma FinishReservationsSettles(st: Pool, rids: set<nat>, end: ReservationState)
    requires !end.Live()
    ensures var su := FinishReservations(st, rids, end); Settles(st, su) && Firm(st, su) && Quiet(NOTHING, st, su) && EndsEmpty({}, st, su)
  {
  }

  lemma FinishReservationsEbbs(safe: set<string>, target: int, st: Pool, rids: set<nat>, end: ReservationState)
    requires Inv(safe, st) && !end.Live()
    ensures Ebbs(safe, target, st, FinishReservations(st, rids, end))
  {
    hide *;
    FinishReservationsSettles(st, rids, end);
    SettleEbbs(safe, target, st, FinishReservations(st, rids, end));
  }

  lemma FailThenFinish(safe: set<string>, target: int, st: Pool, ids: set<nat>, rids: set<nat>)
    requires Inv(safe, st)
    ensures Ebbs(safe, target, st, FinishReservations(FailLeases(st, ids), rids, ResFailed))
  {
    hide Inv, Calm, Barred, Arms, Shrinks;
    var su := FailLeases(st, ids);
    FailLeasesEbbs(safe, target, st, ids);
    FinishReservationsEbbs(safe, target, su, rids, ResFailed);
    EbbChain(safe, target, st, su, FinishReservations(su, rids, ResFailed));
  }

  lemma FailCohortsEbbs(safe: set<string>, target: int, st: Pool, keys: set<CohortKey>, settle: bool, now: int)
    requires Inv(safe, st)
    ensures Ebbs(safe, target, st, FailCohorts(st, keys, settle, now))
  {
    hide Inv, Calm, Barred, Arms, Shrinks;
    var members := CohortLeases(st, keys);
    if !settle {
      FailThenFinish(safe, target, st, members, CohortReservations(st, keys));
    } else {
      var owners := set id | id in members && OwnsProject(st.leases[id]);
      var su := ReleaseLeases(BlockSessions(st, SessionsOf(st, owners), now), owners, now);
      BlockThenRelease(safe, target, st, SessionsOf(st, owners), owners, now);
      FailThenFinish(safe, target, su, members - owners, CohortReservations(st, keys));
      EbbChain(safe, target, st, su, FailCohorts(st, keys, settle, now));
    }
  }

  lemma ExpireCohortsEbbs(safe: set<string>, target: int, st: Pool, keys: set<CohortKey>, now: int)
    requires Inv(safe, st)
    ensures Ebbs(safe, target, st, ExpireCohorts(st, keys, now))
  {
    hide Inv, Calm, Barred, Arms, Shrinks;
    var members := CohortLeases(st, keys);
    var unpermitted := set id | id in members && st.leases[id].permit.None?;
    var closing := set id | id in unpermitted && OwnsProject(st.leases[id]);
    var blocking := set id | id in members && (id in closing || st.leases[id].state.Releasing?);
    var su := ReleaseLeases(BlockSessions(st, SessionsOf(st, blocking), now), closing, now);
    assert closing <= blocking;
    assert SessionsOf(st, closing) <= SessionsOf(st, blocking);
    BlockThenRelease(safe, target, st, SessionsOf(st, blocking), closing, now);
    var sv := ExpireLeases(su, unpermitted);
    ExpireLeasesEbbs(safe, target, su, unpermitted);
    EbbChain(safe, target, st, su, sv);
    var ended := set r | r in CohortReservations(st, keys) && !HasPermit(st.leases, st.reservations[r].lease);
    FinishReservationsEbbs(safe, target, sv, ended, ResExpired);
    EbbChain(safe, target, st, sv, FinishReservations(sv, ended, ResExpired));
  }

  lemma ReleaseFinishedEbbs(safe: set<string>, target: int, st: Pool)
    requires Inv(safe, st)
    ensures Ebbs(safe, target, st, ReleaseFinished(st))
  {
    hide Inv, Calm, Barred, Arms, Shrinks;
    var tasksOver := set r | r in st.reservations && TaskOver(st.tasks, st.reservations[r].task);
    var su := FinishReservations(st, tasksOver, ResReleased);
    FinishReservationsEbbs(safe, target, st, tasksOver, ResReleased);
    var leasesOver := set r | r in su.reservations && !su.reservations[r].state.Reserved?
                            && LeaseOver(su.leases, su.reservations[r].lease);
    FinishReservationsEbbs(safe, target, su, leasesOver, ResReleased);
    EbbChain(safe, target, st, su, FinishReservations(su, leasesOver, ResReleased));
  }

  lemma StillReserved(safe: set<string>, target: int, st: Pool, su: Pool, which: set<nat>)
    requires Ebbs(safe, target, st, su)
    requires forall s :: s in which ==> exists r :: r in st.reservations && st.reservations[r].session == s
    ensures Registered(su, which)
  {
    assert Inv(safe, su) && Evolves(st, su);
    hide Inv, Kept, Shrinks;
    forall s | s in which && s in su.sessions
      ensures !su.sessions[s].state.Starting?
    {
      var r :| r in st.reservations && st.reservations[r].session == s;
      assert ReservationEvolves(st.reservations[r], su.reservations[r]);
      ReservedRegistered(safe, su, r);
    }
  }

  lemma FailInvalidTargetsEbbs(safe: set<string>, target: int, st: Pool, now: int)
    requires Inv(safe, st)
    ensures Ebbs(safe, target, st, FailInvalidTargets(st, now))
  {
    hide Inv, Calm, Barred, Arms, Shrinks, InvalidKeys, FailCohorts, RefreshSessions, Registered;
    var keys := InvalidKeys(st);
    var su := FailCohorts(st, keys, false, now);
    FailCohortsEbbs(safe, target, st, keys, false, now);
    var affected := set r | r in st.reservations && st.reservations[r].key in keys :: st.reservations[r].session;
    hide Ebbs;
    StillReserved(safe, target, st, su, affected);
    assert Inv(safe, su) by { EbbsInv(safe, target, st, su); }
    RefreshSessionsEbbs(safe, target, su, affected);
    EbbChain(safe, target, st, su, RefreshSessions(su, affected));
  }

  /** A Desktop that was registered stays so. */
  lemma EbbRegistered(safe: set<string>, target: int, st: Pool, su: Pool, s: nat)
    requires Ebbs(safe, target, st, su) && s in st.sessions && Registered(st, {s})
    ensures Registered(su, {s})
  {
    hide Inv, Owned, Quiet, Lifecycle, Rests, NoWave, Admits, BarrierHolds, Arms, Barred, Shrinks, WavesFrozen;
    assert SessionEvolves(st.sessions[s], su.sessions[s]);
  }

  lemma EbbsInv(safe: set<string>, target: int, st: Pool, su: Pool)
    requires Ebbs(safe, target, st, su)
    ensures Inv(safe, su)
  {
  }

  lemma RefreshReservationsEbbs(safe: set<string>, target: int, st: Pool, now: int)
    requires Inv(safe, st)
    ensures Ebbs(safe, target, st, RefreshReservations(st, now))
  {
    hide Inv, Calm, Barred, Arms, Shrinks;
    var s1 := FailCohorts(st, TerminalSiblingKeys(st), true, now);
    FailCohortsEbbs(safe, target, st, TerminalSiblingKeys(st), true, now);
    var s2 := ExpireCohorts(s1, ExpiredKeys(s1, now), now);
    ExpireCohortsEbbs(safe, target, s1, ExpiredKeys(s1, now), now);
    EbbChain(safe, target, st, s1, s2);
    var s3 := ReleaseFinished(s2);
    ReleaseFinishedEbbs(safe, target, s2);
    EbbChain(safe, target, st, s2, s3);
    FailInvalidTargetsEbbs(safe, target, s3, now);
    EbbChain(safe, target, st, s3, FailInvalidTargets(s3, now));
  }
}
