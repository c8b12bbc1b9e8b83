/** The reconciler keeps the pool, phase by phase. */
module PoolReconcileProofs {
  import opened PoolRows
  import opened PoolInvariant
  import opened PoolSettle
  import opened PoolCalm
  import opened PoolRefresh
  import opened PoolRefreshProofs
  import opened PoolEntry
  import opened PoolEntryProofs
  import opened PoolCursor
  import opened PoolClient
  import opened PoolHost
  import opened PoolHostProofs
  import opened PoolReconcile

  // ----- session rows -----

  lemma RefreshEmptyDrainsEbbs(safe: set<string>, target: int, st: Pool)
    requires Inv(safe, st)
    ensures Ebbs(safe, target, st, RefreshEmptyDrains(st))
  {
    hide Inv, Ebbs, RefreshSessions;
    RefreshSessionsEbbs(safe, target, st, set s | s in st.sessions && st.sessions[s].state.Busy?
                                                  && st.sessions[s].drainAt.Some? && NoHolder(st.leases, s));
  }

  lemma RowRetires(x: Session)
    requires x.state.Starting?
    ensures RowEbbs(x, x.(state := SessionFailed, fault := OtherFault), true)
  {
  }

  lemma RetireStartsEbbs(safe: set<string>, target: int, st: Pool, which: set<nat>)
    requires Inv(safe, st)
    ensures Ebbs(safe, target, st, RetireStarts(st, which))
  {
    InvLeaseRows(safe, st);
    hide Inv, Ebbs, NoHolder, RowEbbs, LeaseRows;
    var su := RetireStarts(st, which);
    forall s | s in st.sessions
      ensures s in su.sessions && RowEbbs(st.sessions[s], su.sessions[s], NoHolder(st.leases, s))
    {
      if su.sessions[s] == st.sessions[s] {
        RowSubsides(st.sessions[s], su.sessions[s], NoHolder(st.leases, s));
      } else {
        StartingEmpty(st.sessions, st.leases, s);
        RowRetires(st.sessions[s]);
      }
    }
    hide *;
    RowsEbb(safe, target, st, su);
  }

  lemma DrainPressuredEbbs(safe: set<string>, target: int, st: Pool, which: set<nat>, now: int)
    requires Inv(safe, st)
    ensures Ebbs(safe, target, st, DrainPressured(st, which, now))
  {
    hide Inv, Ebbs, NoHolder, RowEbbs;
    var su := DrainPressured(st, which, now);
    forall s | s in st.sessions
      ensures s in su.sessions && RowEbbs(st.sessions[s], su.sessions[s], NoHolder(st.leases, s))
    {
      RowSubsides(st.sessions[s], su.sessions[s], NoHolder(st.leases, s));
    }
    hide *;
    RowsEbb(safe, target, st, su);
  }

  lemma QuarantineSessionsEbbs(safe: set<string>, target: int, st: Pool, which: set<nat>, now: int)
    requires Inv(safe, st)
    ensures Ebbs(safe, target, st, QuarantineSessions(st, which, now))
  {
    hide Inv, Ebbs, NoHolder, RowEbbs;
    var su := QuarantineSessions(st, which, now);
    forall s | s in st.sessions
      ensures s in su.sessions && RowEbbs(st.sessions[s], su.sessions[s], NoHolder(st.leases, s))
    {
      RowSubsides(st.sessions[s], su.sessions[s], NoHolder(st.leases, s));
    }
    hide *;
    RowsEbb(safe, target, st, su);
  }

  lemma ExpireSessionsEbbs(safe: set<string>, target: int, st: Pool, cfg: Config, now: int)
    requires Inv(safe, st)
    ensures Ebbs(safe, target, st, ExpireSessions(st, cfg, now))
  {
    hide Inv, Ebbs, NoHolder, RowEbbs;
    var su := ExpireSessions(st, cfg, now);
    forall s | s in st.sessions
      ensures s in su.sessions && RowEbbs(st.sessions[s], su.sessions[s], NoHolder(st.leases, s))
    {
      RowSubsides(st.sessions[s], su.sessions[s], NoHolder(st.leases, s));
    }
    hide *;
    RowsEbb(safe, target, st, su);
  }

  lemma ExpireStartsEbbs(safe: set<string>, target: int, st: Pool, cfg: Config, now: int)
    requires Inv(safe, st)
    ensures Ebbs(safe, target, st, ExpireStarts(st, cfg, now))
  {
    hide Inv, Ebbs, NoHolder, RowEbbs;
    var su := ExpireStarts(st, cfg, now);
    forall s | s in st.sessions
      ensures s in su.sessions && RowEbbs(st.sessions[s], su.sessions[s], NoHolder(st.leases, s))
    {
      RowSubsides(st.sessions[s], su.sessions[s], NoHolder(st.leases, s));
    }
    hide *;
    RowsEbb(safe, target, st, su);
  }

  lemma RestoreAllocationsEbbs(safe: set<string>, target: int, st: Pool)
    requires Inv(safe, st)
    ensures Ebbs(safe, target, st, RestoreAllocations(st))
  {
    hide Inv, Ebbs, NoHolder, RowEbbs, Restorable;
    var su := RestoreAllocations(st);
    forall s | s in st.sessions
      ensures s in su.sessions && RowEbbs(st.sessions[s], su.sessions[s], NoHolder(st.leases, s))
    {
      RowSubsides(st.sessions[s], su.sessions[s], NoHolder(st.leases, s));
    }
    hide *;
    RowsEbb(safe, target, st, su);
  }

  lemma DrainStrandedEbbs(safe: set<string>, target: int, st: Pool, now: int)
    requires Inv(safe, st)
    ensures Ebbs(safe, target, st, DrainStranded(st, now))
  {
    hide Inv, Ebbs, NoHolder, RowEbbs;
    var su := DrainStranded(st, now);
    forall s | s in st.sessions
      ensures s in su.sessions && RowEbbs(st.sessions[s], su.sessions[s], NoHolder(st.leases, s))
    {
      RowSubsides(st.sessions[s], su.sessions[s], NoHolder(st.leases, s));
    }
    hide *;
    RowsEbb(safe, target, st, su);
  }

  lemma DrainRebalancedEbbs(safe: set<string>, target: int, st: Pool, which: set<nat>, now: int)
    requires Inv(safe, st)
    ensures Ebbs(safe, target, st, DrainRebalanced(st, which, now))
  {
    hide Inv, Ebbs, NoHolder, RowEbbs, NothingHeld;
    var su := DrainRebalanced(st, which, now);
    forall s | s in st.sessions
      ensures s in su.sessions && RowEbbs(st.sessions[s], su.sessions[s], NoHolder(st.leases, s))
    {
      RowSubsides(st.sessions[s], su.sessions[s], NoHolder(st.leases, s));
    }
    hide *;
    RowsEbb(safe, target, st, su);
  }

  lemma DrainSurplusEbbs(safe: set<string>, target: int, st: Pool, which: set<nat>, now: int)
    requires Inv(safe, st)
    ensures Ebbs(safe, target, st, DrainSurplus(st, which, now))
  {
    hide Inv, Ebbs, NoHolder, RowEbbs, NothingHeld;
    var su := DrainSurplus(st, which, now);
    forall s | s in st.sessions
      ensures s in su.sessions && RowEbbs(st.sessions[s], su.sessions[s], NoHolder(st.leases, s))
    {
      RowSubsides(st.sessions[s], su.sessions[s], NoHolder(st.leases, s));
    }
    hide *;
    RowsEbb(safe, target, st, su);
  }

  // ----- lease rows -----

  ghost predicate Closable(st: Pool, ids: set<nat>) {
    forall id :: id in ids && id in st.leases ==>
      st.leases[id].state.Leased? || st.leases[id].state.Attaching? || st.leases[id].state.Active?
  }

  lemma CloseProjectsFirm(st: Pool, ids: set<nat>, now: int)
    requires Closable(st, ids) && AllBlocked(st, ids)
    ensures Firm(st, CloseProjects(st, ids, now))
  {
    var su := CloseProjects(st, ids, now);
    forall id | id in st.leases
      ensures FirmLease(su.sessions, st.leases[id], su.leases[id])
    {
      if id in ids {
        assert BehindBarrier(st.sessions, st.leases[id].(state := Releasing));
      }
    }
  }

  lemma CloseProjectsSettles(st: Pool, ids: set<nat>, now: int)
    requires Closable(st, ids)
    ensures var su := CloseProjects(st, ids, now); Settles(st, su) && Quiet(NOTHING, st, su) && EndsEmpty({}, st, su)
  {
  }

  lemma CloseProjectsEbbs(safe: set<string>, target: int, st: Pool, ids: set<nat>, now: int)
    requires Inv(safe, st) && Closable(st, ids) && AllBlocked(st, ids)
    ensures Ebbs(safe, target, st, CloseProjects(st, ids, now))
  {
    hide *;
    CloseProjectsSettles(st, ids, now);
    CloseProjectsFirm(st, ids, now);
    SettleEbbs(safe, target, st, CloseProjects(st, ids, now));
  }

  lemma BlockThenClose(safe: set<string>, target: int, st: Pool, ids: set<nat>, now: int)
    requires Inv(safe, st) && Closable(st, ids)
    ensures Ebbs(safe, target, st, CloseProjects(BlockSessions(st, SessionsOf(st, ids), now), ids, now))
  {
    hide Inv, Ebbs, AllBlocked, SessionsOf;
    InvLeaseRows(safe, st);
    SessionsOfBlocked(st, ids, SessionsOf(st, ids), now);
    var su := BlockSessions(st, SessionsOf(st, ids), now);
    BlockSessionsEbbs(safe, target, st, SessionsOf(st, ids), now);
    EbbsInv(safe, target, st, su);
    CloseProjectsEbbs(safe, target, su, ids, now);
    EbbChain(safe, target, st, su, CloseProjects(su, ids, now));
  }

  ghost predicate Unattached(st: Pool, ids: set<nat>) {
    forall id :: id in ids && id in st.leases ==>
      st.leases[id].state.Queued? || st.leases[id].state.Offered? || st.leases[id].state.Leased?
  }

  lemma CancelLeasesSettles(st: Pool, ids: set<nat>, end: LeaseState)
    requires Unattached(st, ids) && (end.Cancelled? || end.Expired?)
    ensures Settles(st, CancelLeases(st, ids, end))
  {
  }

  lemma CancelLeasesFirm(st: Pool, ids: set<nat>, end: LeaseState)
    requires end.Cancelled? || end.Expired?
    ensures var su := CancelLeases(st, ids, end); Firm(st, su) && Quiet(NOTHING, st, su) && EndsEmpty({}, st, su)
  {
  }

  /** The Desktops of leases were registered, and blocking or closing changes no state. */
  lemma SessionsOfRegistered(safe: set<string>, st: Pool, ids: set<nat>)
    requires Inv(safe, st)
    ensures Registered(st, SessionsOf(st, ids))
  {
    hide Sharing, ReservationRows, Pins, Cohorts, Capacity, WaveOrder;
    forall s | s in SessionsOf(st, ids)
      ensures !st.sessions[s].state.Starting?
    {
      var id :| id in ids && id in st.leases && st.leases[id].session == Some(s);
      assert LeaseRow(st.sessions, st.leases[id]);
    }
  }

  lemma StillRegistered(st: Pool, which: set<nat>, blocks: set<nat>, closes: set<nat>, now: int)
    requires Registered(st, which)
    ensures Registered(CloseProjects(BlockSessions(st, blocks, now), closes, now), which)
  {
  }

  lemma CancelThenRefresh(safe: set<string>, target: int, st: Pool, ids: set<nat>, end: LeaseState, which: set<nat>)
    requires Inv(safe, st) && Unattached(st, ids) && (end.Cancelled? || end.Expired?) && Registered(st, which)
    ensures Ebbs(safe, target, st, RefreshSessions(CancelLeases(st, ids, end), which))
  {
    var su := CancelLeases(st, ids, end);
    assert Registered(su, which);
    hide Inv, Ebbs, Unattached, CancelLeases, RefreshSessions, Registered, Settles, Firm, Quiet, EndsEmpty;
    CancelLeasesSettles(st, ids, end);
    CancelLeasesFirm(st, ids, end);
    SettleEbbs(safe, target, st, su);
    EbbsInv(safe, target, st, su);
    RefreshSessionsEbbs(safe, target, su, which);
    EbbChain(safe, target, st, su, RefreshSessions(su, which));
  }

  /** Closing projects leaves every other lease alone. */
  lemma StillUnattached(st: Pool, which: set<nat>, owners: set<nat>, others: set<nat>, now: int)
    requires Unattached(st, others) && owners !! others
    ensures Unattached(CloseProjects(BlockSessions(st, which, now), owners, now), others)
  {
  }

  lemma EndOrphansEbbs(safe: set<string>, target: int, st: Pool, now: int)
    requires Inv(safe, st)
    ensures Ebbs(safe, target, st, EndOrphans(st, now))
  {
    hide Inv, Ebbs, Registered, SessionsOf, RefreshSessions, CancelLeases, CloseProjects, BlockSessions;
    var over := set id | id in st.leases && ClientOver(st, st.leases[id]);
    var owners := set id | id in over && OwnsProject(st.leases[id]);
    var others := over - owners;
    var su := CloseProjects(BlockSessions(st, SessionsOf(st, owners), now), owners, now);
    BlockThenClose(safe, target, st, owners, now);
    EbbsInv(safe, target, st, su);
    StillUnattached(st, SessionsOf(st, owners), owners, others, now);
    SessionsOfRegistered(safe, st, others);
    StillRegistered(st, SessionsOf(st, others), SessionsOf(st, owners), owners, now);
    CancelThenRefresh(safe, target, su, others, Cancelled, SessionsOf(st, others));
    EbbChain(safe, target, st, su, EndOrphans(st, now));
  }

  lemma RequeueOffersSettles(st: Pool, ids: set<nat>)
    ensures Settles(st, RequeueOffers(st, ids))
  {
    var su := RequeueOffers(st, ids);
    forall r | r in st.reservations
      ensures ReservationMove(st.reservations[r], su.reservations[r],
                              Requeued(st.leases, su.leases, st.reservations[r].lease))
    {
    }
  }

  lemma RequeueOffersFirm(st: Pool, ids: set<nat>)
    ensures var su := RequeueOffers(st, ids); Firm(st, su) && Quiet(NOTHING, st, su) && EndsEmpty({}, st, su)
  {
  }

  lemma RequeueOffersEbbs(safe: set<string>, target: int, st: Pool, ids: set<nat>)
    requires Inv(safe, st)
    ensures Ebbs(safe, target, st, RequeueOffers(st, ids))
  {
    hide *;
    RequeueOffersSettles(st, ids);
    RequeueOffersFirm(st, ids);
    SettleEbbs(safe, target, st, RequeueOffers(st, ids));
  }

  lemma RequeueStaleEbbs(safe: set<string>, target: int, st: Pool, now: int)
    requires Inv(safe, st)
    ensures Ebbs(safe, target, st, RequeueStale(st, now))
  {
    hide Inv, Ebbs, SessionsOf, RefreshSessions, RequeueOffers, StaleOffers;
    var ids := StaleOffers(st, now);
    var su := RequeueOffers(st, ids);
    RequeueOffersEbbs(safe, target, st, ids);
    EbbsInv(safe, target, st, su);
    SessionsOfRegistered(safe, st, ids);
    assert Registered(su, SessionsOf(st, ids)) by { RequeueRegistered(st, SessionsOf(st, ids), ids); }
    hide Registered;
    RefreshSessionsEbbs(safe, target, su, SessionsOf(st, ids));
    EbbChain(safe, target, st, su, RequeueStale(st, now));
  }

  lemma RequeueRegistered(st: Pool, which: set<nat>, ids: set<nat>)
    requires Registered(st, which)
    ensures Registered(RequeueOffers(st, ids), which)
  {
  }

  lemma ExpireLapsedEbbs(safe: set<string>, target: int, st: Pool, cfg: Config, now: int)
    requires Inv(safe, st)
    ensures Ebbs(safe, target, st, ExpireLapsed(st, cfg, now))
  {
    hide Inv, Ebbs, Registered, SessionsOf, RefreshSessions, CancelLeases, CloseProjects, BlockSessions, QuarantineSessions;
    var lapsed := set id | id in st.leases && Lapsed(cfg, st.leases[id], now);
    var waiting := set id | id in lapsed && (st.leases[id].state.Queued? || st.leases[id].state.Offered?);
    var closing := lapsed - waiting;
    var solving := set id | id in closing && st.leases[id].state.Active?;
    var su := CloseProjects(BlockSessions(st, SessionsOf(st, closing), now), closing, now);
    BlockThenClose(safe, target, st, closing, now);
    EbbsInv(safe, target, st, su);
    StillUnattached(st, SessionsOf(st, closing), closing, waiting, now);
    SessionsOfRegistered(safe, st, waiting);
    StillRegistered(st, SessionsOf(st, waiting), SessionsOf(st, closing), closing, now);
    var sv := RefreshSessions(CancelLeases(su, waiting, Expired), SessionsOf(st, waiting));
    CancelThenRefresh(safe, target, su, waiting, Expired, SessionsOf(st, waiting));
    EbbChain(safe, target, st, su, sv);
    EbbsInv(safe, target, st, sv);
    QuarantineSessionsEbbs(safe, target, sv, SessionsOf(st, solving), now);
    EbbChain(safe, target, st, sv, ExpireLapsed(st, cfg, now));
  }

  /** A Desktop that still closes a project was registered. */
  lemma ClosingStarted(safe: set<string>, st: Pool, s: nat, cutoff: int)
    requires Inv(safe, st) && s in st.sessions
    requires exists id :: id in st.leases && st.leases[id].session == Some(s) && ReleaseOld(st.leases[id], cutoff)
    ensures st.sessions[s].started.Some?
  {
    var id :| id in st.leases && st.leases[id].session == Some(s) && ReleaseOld(st.leases[id], cutoff);
    assert LeaseRow(st.sessions, st.leases[id]);
  }

  lemma CondemnRow(x: Session, now: int, empty: bool)
    requires x.started.Some? && x.state.Unhealthy?
    ensures
      var y := x.(fault := OtherFault, quarantine := OtherQuarantine, blockedAt := Coalesce(x.blockedAt, now),
                  drainAt := Coalesce(x.drainAt, now));
      SessionMove(x, y, empty) && FirmSession(x, y) && RestSession(x, y) && HeldSession(x, y)
  {
  }

  lemma CondemnSilentEbbs(safe: set<string>, target: int, st: Pool, cutoff: int, now: int)
    requires Inv(safe, st)
    ensures Ebbs(safe, target, st, CondemnSilent(st, cutoff, now))
  {
    hide Inv, Ebbs, ReleaseOld, SessionMove, FirmSession, RestSession, HeldSession, Coalesce;
    var su := CondemnSilent(st, cutoff, now);
    forall s | s in st.sessions
      ensures SessionMove(st.sessions[s], su.sessions[s], NoHolder(st.leases, s))
      ensures FirmSession(st.sessions[s], su.sessions[s])
      ensures RestSession(st.sessions[s], su.sessions[s]) && HeldSession(st.sessions[s], su.sessions[s])
    {
      SameRow(st.sessions[s], NoHolder(st.leases, s));
      if Silent(st.sessions[s], cutoff)
         && exists id :: id in st.leases && st.leases[id].session == Some(s) && ReleaseOld(st.leases[id], cutoff) {
        ClosingStarted(safe, st, s, cutoff);
        CondemnRow(st.sessions[s], now, NoHolder(st.leases, s));
      }
    }
    SessionsOnlyEbbs(safe, target, st, su);
  }

  lemma LoseReleasesEbbs(safe: set<string>, target: int, st: Pool, cfg: Config, now: int)
    requires Inv(safe, st)
    ensures Ebbs(safe, target, st, LoseReleases(st, cfg, now))
  {
    hide Inv, Ebbs, FailLeases, CondemnSilent, Silent, ReleaseOld;
    var cutoff := now - cfg.sessionTimeout;
    var su := CondemnSilent(st, cutoff, now);
    CondemnSilentEbbs(safe, target, st, cutoff, now);
    EbbsInv(safe, target, st, su);
    FailLeasesEbbs(safe, target, su, set id | id in su.leases && ReleaseOld(su.leases[id], cutoff)
      && (su.leases[id].session.None? || su.leases[id].session.value !in su.sessions
          || su.sessions[su.leases[id].session.value].state.Over()
          || Silent(su.sessions[su.leases[id].session.value], cutoff)));
    EbbChain(safe, target, st, su, LoseReleases(st, cfg, now));
  }

  lemma ReapedSettles(st: Pool, dead: set<nat>)
    requires forall s :: s in dead && s in st.sessions ==> NoHolder(st.leases, s)
    ensures
      var su := st.(sessions := map s | s in st.sessions ::
        if s in dead then st.sessions[s].(state := SessionFailed) else st.sessions[s]);
      SessionsSettle(st.sessions, su.sessions, st.leases) && FirmSessions(st, su)
  {
    hide NoHolder;
  }

  lemma ReapUnreachableEbbs(safe: set<string>, target: int, st: Pool, cfg: Config, now: int)
    requires Inv(safe, st)
    ensures Ebbs(safe, target, st, ReapUnreachable(st, cfg, now))
  {
    hide Inv, Ebbs, Unreachable;
    var dead := set s | s in st.sessions && Unreachable(st, cfg, s, now);
    var ids := set id | id in st.leases && st.leases[id].state.Holds()
                        && st.leases[id].session.Some? && st.leases[id].session.value in dead;
    var su := FailLeases(st, ids);
    FailLeasesEbbs(safe, target, st, ids);
    EbbsInv(safe, target, st, su);
    forall s | s in dead && s in su.sessions
      ensures NoHolder(su.leases, s)
    {
    }
    hide FailLeases, NoHolder;
    ReapedSettles(su, dead);
    hide SessionsSettle, FirmSessions;
    SessionsOnlyEbbs(safe, target, su, ReapUnreachable(st, cfg, now));
    EbbChain(safe, target, st, su, ReapUnreachable(st, cfg, now));
  }

  // ----- the pass -----

  lemma PrepareEbbs(safe: set<string>, target: int, st: Pool, cfg: Config, execute: bool, orders: Orders, now: int)
    requires Inv(safe, st)
    ensures Ebbs(safe, target, st, Prepare(st, cfg, execute, orders, now))
  {
    hide Inv, Ebbs, RefreshEmptyDrains, RefreshReservations, RetireStarts, DrainPressured;
    RefreshTwice(safe, target, st, now);
    var s1 := RefreshEmptyDrains(RefreshReservations(RefreshEmptyDrains(st), now));
    if execute && cfg.operational {
      EbbsInv(safe, target, st, s1);
      var s2 := RetireStarts(s1, orders.blockedStarts);
      RetireStartsEbbs(safe, target, s1, orders.blockedStarts);
      EbbChain(safe, target, st, s1, s2);
      EbbsInv(safe, target, st, s2);
      var s3 := DrainPressured(s2, orders.pressured, now);
      if s3 != s2 {
        DrainPressuredEbbs(safe, target, s2, orders.pressured, now);
        EbbChain(safe, target, st, s2, s3);
        EbbsInv(safe, target, st, s3);
        RefreshThenEmpty(safe, target, s3, now);
        EbbChain(safe, target, st, s3, RefreshEmptyDrains(RefreshReservations(s3, now)));
      }
    }
  }

  lemma RefreshThenEmpty(safe: set<string>, target: int, st: Pool, now: int)
    requires Inv(safe, st)
    ensures Ebbs(safe, target, st, RefreshEmptyDrains(RefreshReservations(st, now)))
  {
    hide Inv, Ebbs, RefreshEmptyDrains, RefreshReservations;
    var su := RefreshReservations(st, now);
    RefreshReservationsEbbs(safe, target, st, now);
    EbbsInv(safe, target, st, su);
    RefreshEmptyDrainsEbbs(safe, target, su);
    EbbChain(safe, target, st, su, RefreshEmptyDrains(su));
  }

  lemma RefreshTwice(safe: set<string>, target: int, st: Pool, now: int)
    requires Inv(safe, st)
    ensures Ebbs(safe, target, st, RefreshEmptyDrains(RefreshReservations(RefreshEmptyDrains(st), now)))
  {
    hide Inv, Ebbs, RefreshEmptyDrains, RefreshReservations;
    var su := RefreshEmptyDrains(st);
    RefreshEmptyDrainsEbbs(safe, target, st);
    EbbsInv(safe, target, st, su);
    RefreshThenEmpty(safe, target, su, now);
    EbbChain(safe, target, st, su, RefreshEmptyDrains(RefreshReservations(su, now)));
  }

  lemma RotateEbbs(safe: set<string>, target: int, st: Pool, cfg: Config, execute: bool, now: int)
    requires Inv(safe, st)
    ensures Ebbs(safe, target, st, Rotate(st, cfg, execute, now))
  {
    hide Inv, Ebbs, RequestDrain;
    var s1 := RotateAllocations(st, cfg, now);
    EbbSelf(safe, target, st);
    ElsewhereEbbs(safe, target, st, s1);
    EbbsInv(safe, target, st, s1);
    RequestDrainEbbs(safe, target, s1, Some(Rotating(s1)), now);
    EbbChain(safe, target, st, s1, RequestDrain(s1, Some(Rotating(s1)), now));
  }

  lemma ReapLeasesEbbs(safe: set<string>, target: int, st: Pool, cfg: Config, now: int)
    requires Inv(safe, st)
    ensures Ebbs(safe, target, st, ReapLeases(st, cfg, now))
  {
    hide Inv, Ebbs, EndOrphans, RequeueStale, ExpireLapsed;
    var s1 := EndOrphans(st, now);
    EndOrphansEbbs(safe, target, st, now);
    EbbsInv(safe, target, st, s1);
    var s2 := RequeueStale(s1, now);
    RequeueStaleEbbs(safe, target, s1, now);
    EbbChain(safe, target, st, s1, s2);
    EbbsInv(safe, target, st, s2);
    ExpireLapsedEbbs(safe, target, s2, cfg, now);
    EbbChain(safe, target, st, s2, ExpireLapsed(s2, cfg, now));
  }

  lemma ReapSessionsEbbs(safe: set<string>, target: int, st: Pool, cfg: Config, now: int)
    requires Inv(safe, st)
    ensures Ebbs(safe, target, st, ReapSessions(st, cfg, now))
  {
    hide Inv, Ebbs, ExpireSessions, LoseReleases, ExpireStarts, ReapUnreachable;
    var s1 := ExpireSessions(st, cfg, now);
    ExpireSessionsEbbs(safe, target, st, cfg, now);
    EbbsInv(safe, target, st, s1);
    var s2 := LoseReleases(s1, cfg, now);
    LoseReleasesEbbs(safe, target, s1, cfg, now);
    EbbChain(safe, target, st, s1, s2);
    EbbsInv(safe, target, st, s2);
    var s3 := ExpireStarts(s2, cfg, now);
    ExpireStartsEbbs(safe, target, s2, cfg, now);
    EbbChain(safe, target, st, s2, s3);
    var s4 := RecycleAllocations(s3, cfg, now);
    ThenElsewhere(safe, target, st, s3, s4);
    EbbsInv(safe, target, st, s4);
    ReapUnreachableEbbs(safe, target, s4, cfg, now);
    EbbChain(safe, target, st, s4, ReapUnreachable(s4, cfg, now));
  }

  lemma RestoreEbbs(safe: set<string>, target: int, st: Pool, execute: bool, now: int)
    requires Inv(safe, st)
    ensures Ebbs(safe, target, st, Restore(st, execute, now))
  {
    hide Inv, Ebbs, RestoreAllocations, DrainStranded;
    EbbSelf(safe, target, st);
    var su := RestoreAllocations(st);
    RestoreAllocationsEbbs(safe, target, st);
    EbbsInv(safe, target, st, su);
    DrainStrandedEbbs(safe, target, su, now);
    EbbChain(safe, target, st, su, DrainStranded(su, now));
  }

  lemma ApplyKept(safe: set<string>, target: int, st: Pool, cfg: Config, orders: Orders, now: int)
    requires Inv(safe, st)
    ensures Kept(safe, target, NOTHING, st, Apply(st, cfg, orders, now))
  {
    hide Inv, Calm, Barred, Arms, Shrinks, DrainRebalanced, DrainSurplus, AddSessions;
    var s1 := DrainRebalanced(st, orders.rebalance, now);
    DrainRebalancedEbbs(safe, target, st, orders.rebalance, now);
    var s2 := DrainSurplus(s1, orders.surplus, now);
    DrainSurplusEbbs(safe, target, s1, orders.surplus, now);
    KeptChain(safe, target, st, s1, s2);
    var xs := seq(|orders.opening|, i requires 0 <= i < |orders.opening| => Opened(orders.opening[i], now));
    AddSessionsKept(safe, target, s2, xs);
    KeptChain(safe, target, st, s2, AddSessions(s2, xs));
  }

  lemma ReapedEbbs(safe: set<string>, target: int, st: Pool, cfg: Config, execute: bool, orders: Orders, now: int)
    requires Inv(safe, st)
    ensures Ebbs(safe, target, st,
                 Restore(ReapSessions(ReapLeases(Rotate(Prepare(st, cfg, execute, orders, now), cfg, execute, now),
                                                 cfg, now), cfg, now), execute, now))
  {
    hide Inv, Ebbs, Prepare, Rotate, ReapLeases, ReapSessions, Restore;
    var s1 := Prepare(st, cfg, execute, orders, now);
    PrepareEbbs(safe, target, st, cfg, execute, orders, now);
    EbbsInv(safe, target, st, s1);
    var s2 := Rotate(s1, cfg, execute, now);
    RotateEbbs(safe, target, s1, cfg, execute, now);
    EbbChain(safe, target, st, s1, s2);
    EbbsInv(safe, target, st, s2);
    var s3 := ReapLeases(s2, cfg, now);
    ReapLeasesEbbs(safe, target, s2, cfg, now);
    EbbChain(safe, target, st, s2, s3);
    EbbsInv(safe, target, st, s3);
    var s4 := ReapSessions(s3, cfg, now);
    ReapSessionsEbbs(safe, target, s3, cfg, now);
    EbbChain(safe, target, st, s3, s4);
    EbbsInv(safe, target, st, s4);
    RestoreEbbs(safe, target, s4, execute, now);
    EbbChain(safe, target, st, s4, Restore(s4, execute, now));
  }

  lemma ReconcileKept(safe: set<string>, st: Pool, cfg: Config, execute: bool, orders: Orders, now: int)
    requires Inv(safe, st)
    ensures Kept(safe, cfg.target, NOTHING, st, Reconcile(st, cfg, execute, orders, now))
  {
    hide Inv, Calm, Barred, Arms, Shrinks, Prepare, Rotate, ReapLeases, ReapSessions, Restore, PlaceBatch, Apply;
    var ready := Restore(ReapSessions(ReapLeases(Rotate(Prepare(st, cfg, execute, orders, now), cfg, execute, now),
                                                 cfg, now), cfg, now), execute, now);
    ReapedEbbs(safe, cfg.target, st, cfg, execute, orders, now);
    if execute && cfg.operational {
      var placed := PlaceBatch(ready, cfg, now);
      PlaceBatchKept(safe, ready, cfg, now);
      KeptChain(safe, cfg.target, st, ready, placed);
      ApplyKept(safe, cfg.target, placed, cfg, orders, now);
      KeptChain(safe, cfg.target, st, placed, Apply(placed, cfg, orders, now));
    }
  }
}
