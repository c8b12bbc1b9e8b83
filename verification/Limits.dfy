/** Where the code does not promise what its comments suggest: concrete runs. The exact
    conditions are in PoolBarriers and PoolSeals. */
module PoolLimits {
  import opened PoolRows
  import opened PoolInvariant
  import opened PoolRefresh
  import opened PoolCohortLoops
  import opened PoolClient
  import opened PoolHost
  import opened PoolSteps
  import opened PoolBarriers
  import opened PoolSeals

  const SETTINGS := Config(true, 1, 600, 60, 30, 60, 60, 60, 0)
  const IDLE := SETTINGS.(operational := false)

  const DESKTOP := Session(7, "n1", 2, 1, "", Busy, false, 0, None, None, NoQuarantine, None, NoFault,
                           Some(100), Some(0), 0, None, None, "host", "token", "n1:50051", "4711")

  const SOLVING := Lease(Request(2, "g", "f", "", Family, false, 0, 0, 0, 0), "key", "token", Active,
                         Some(2), 0, None, None, 0, "", 100, 200, 0, 1000, None)

  const NODE := Allocation(InUse, ProjectDemand, 0)

  function At(now: int, step: Step): Event { Event(SETTINGS, now, step) }

  // ----- a solver-timeout report that read its Desktop too early -----

  /** The lease moved from Desktop 1 to Desktop 2 after the report read it. */
  const MOVED := Pool(map[1 := DESKTOP.(state := Ready), 2 := DESKTOP], map[1 := SOLVING], map[], map[], map[], 0)

  lemma MovedInv()
    ensures Inv({}, MOVED) && AssignableBarred(MOVED)
  {
    assert FreeHolders(MOVED.leases, 1) == {} && FreeHolders(MOVED.leases, 2) == {1};
    assert PinnedSlots(MOVED.leases, MOVED.reservations, 1) == {} && PinnedSlots(MOVED.leases, MOVED.reservations, 2) == {};
  }

  /** The report closes the project on Desktop 2 and arms the barrier of Desktop 1:
      an assignable Desktop is closing a project without a barrier. */
  lemma StaleTimeoutLosesBarrier()
    ensures
      var su := SolverTimeout(MOVED, 1, 1, 7, 1000, OtherFault, 120);
      && Inv({}, MOVED) && AssignableBarred(MOVED) && !AssignableBarred(su)
      && su.sessions[2].state.Assignable() && su.sessions[2].blockedAt.None?
      && su.leases[1].state.Releasing? && su.leases[1].session == Some(2)
  {
    MovedInv();
    assert StaleReport(MOVED, 1, 1);
    ReportKeepsAssignable(MOVED, 1, 1, 7, 1000, OtherFault, 120);
  }

  // ----- a Desktop whose project close was never confirmed -----

  const SICK := DESKTOP.(state := Unhealthy, fault := HeartbeatTimeout, drainAt := Some(110))

  const CONDEMNED := Pool(
    map[1 := SICK.(fault := OtherFault, quarantine := OtherQuarantine, blockedAt := Some(110))], map[], map[], map[],
    map[7 := NODE.(state := AllocDraining, reason := UnhealthyRecycle)], 0)

  lemma CondemnedInv()
    ensures Inv({}, CONDEMNED) && Condemned(CONDEMNED, 1)
  {
    assert FreeHolders(CONDEMNED.leases, 1) == {};
    assert PinnedSlots(CONDEMNED.leases, CONDEMNED.reservations, 1) == {};
  }

  /** An unconfirmed fault lifts the quarantine, the next heartbeat recovers the Desktop and
      its allocation, and the one after that may clear the barrier: the Desktop takes new
      work although nobody confirmed the close of its project. */
  lemma CondemnedIsReused()
    ensures
      var s1 := SessionFault(CONDEMNED, 1, "token", false, NoFault, 120);
      var s2 := HeartbeatSession(s1, SETTINGS, 1, "token", true, 121);
      && Inv({}, CONDEMNED) && Condemned(CONDEMNED, 1) && !Condemned(s1, 1)
      && s2.sessions[1].state.Ready? && s2.allocations[7].Usable() && BarrierMayClear(s2, 1, 122)
  {
    CondemnedInv();
    var s1 := SessionFault(CONDEMNED, 1, "token", false, NoFault, 120);
    assert Recoverable(s1, 1, true) && !BarrierMayClear(s1, 1, 121) && NoHolder(s1.leases, 1);
    var s2 := HeartbeatSession(s1, SETTINGS, 1, "token", true, 121);
    assert s2.sessions[1].state.Ready?;
    assert s2.allocations[7].Usable();
  }

  // ----- a Desktop that loses its last owner while unhealthy -----

  const LEAVING := Pool(
    map[1 := SICK.(isSealed := true, wave := 1, blockedAt := Some(115))],
    map[1 := SOLVING.(session := Some(1), state := Releasing, permit := Some(1), releaseAt := Some(115))],
    map[], map[], map[7 := NODE], 0)

  lemma LeavingInv()
    ensures Inv({}, LEAVING)
  {
    assert FreeHolders(LEAVING.leases, 1) == {1};
    assert PinnedSlots(LEAVING.leases, LEAVING.reservations, 1) == {};
  }

  lemma NoReservationKeys(st: Pool, now: int)
    requires st.reservations == map[]
    ensures TerminalSiblingKeys(st) == {} && ExpiredKeys(st, now) == {} && InvalidKeys(st) == {}
  {
  }

  lemma NothingFinished(st: Pool)
    requires st.reservations == map[]
    ensures ReleaseFinished(st) == st
  {
    assert ReleaseFinished(st).reservations == map[];
  }

  lemma NothingInvalid(st: Pool, now: int)
    requires st.reservations == map[] && InvalidKeys(st) == {}
    ensures FailInvalidTargets(st, now) == st
  {
    FailNone(st, false, now);
    hide FailCohorts, InvalidKeys;
    assert RefreshSessions(st, {}).sessions == st.sessions;
  }

  /** Without reservations the refresh changes nothing. */
  lemma RefreshNothing(st: Pool, now: int)
    requires st.reservations == map[]
    ensures RefreshReservations(st, now) == st
  {
    hide FailCohorts, ExpireCohorts, ReleaseFinished, FailInvalidTargets, InvalidKeys, TerminalSiblingKeys, ExpiredKeys;
    NoReservationKeys(st, now);
    FailNone(st, true, now);
    ExpireNone(st, now);
    NothingFinished(st);
    NothingInvalid(st, now);
  }

  const GONE := LEAVING.leases[1].(state := Released)
  const LEFT := LEAVING.(sessions := map[1 := LEAVING.sessions[1].(blockedAt := Some(120))], leases := map[1 := GONE])
  const BACK := LEFT.(sessions := map[1 := LEFT.sessions[1].(state := Ready, fault := NoFault, drainAt := None,
                                                             heartbeat := Some(121))])

  lemma LastOwnerConfirmed()
    ensures CompleteRelease(LEAVING, IDLE, 1, "token", 1, true, 120) == LEFT
  {
    hide RefreshReservations;
    assert Acknowledged(LEAVING, 1, 1, true, 120) == LEFT;
    assert RefreshSessions(LEFT, {1}).sessions == LEFT.sessions;
    RefreshNothing(LEFT, 120);
  }

  lemma SickDesktopRecovers()
    ensures HeartbeatSession(LEFT, SETTINGS, 1, "token", true, 121) == BACK
  {
    hide RefreshReservations;
    assert NoHolder(LEFT.leases, 1);
    assert Recoverable(LEFT, 1, true) && !BarrierMayClear(LEFT, 1, 121);
    var x := LEFT.sessions[1].(heartbeat := Some(121));
    var mid := LEFT.(sessions := LEFT.sessions[1 := x]);
    assert Recovered(mid, 1, 121) == BACK;
  }

  lemma BackStuck()
    ensures BACK.sessions[1].state.Ready? && Stuck(BACK, 1)
  {
    assert NoHolder(BACK.leases, 1);
  }

  /** The host confirms the last project and then heartbeats: the Desktop is ready, empty
      and sealed, and nobody will be placed on it while it stays assignable. */
  lemma SealOutlivesBatch()
    ensures Inv({}, LEAVING) && LEAVING.sessions[1].isSealed
    ensures CompleteRelease(LEAVING, IDLE, 1, "token", 1, true, 120) == LEFT
    ensures HeartbeatSession(LEFT, SETTINGS, 1, "token", true, 121) == BACK
    ensures BACK.sessions[1].state.Ready? && Stuck(BACK, 1)
  {
    hide Inv, CompleteRelease, HeartbeatSession, Stuck;
    LeavingInv();
    LastOwnerConfirmed();
    SickDesktopRecovers();
    BackStuck();
  }
}
