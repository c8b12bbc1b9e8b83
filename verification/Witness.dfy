/** A run from the empty database that ends with an assignable Desktop closing a project
    without a reuse barrier. Nothing in it is stale: the report names the Desktop its lease
    is on, which another client has just suspected. */
module PoolWitness {
  import opened PoolRows
  import opened PoolRefresh
  import opened PoolPlacement
  import opened PoolSolve
  import opened PoolEntry
  import opened PoolCursor
  import opened PoolClient
  import opened PoolHost
  import opened PoolReconcile
  import opened PoolSteps
  import opened PoolSafety
  import opened PoolBarriers
  import opened PoolLimits

  const OPENING := Opening(7, "n1", 2)
  const ORDERS := Orders({}, {}, {}, {}, [OPENING])
  const NODES: Allocations := map[7 := NODE]
  const WISH := Wish("key", "secret", Request(2, "g", "f", "", Family, false, 0, 0, 0, 0), 0, 0, "", 1000)

  const STARTING := Opened(OPENING, 0)
  const CLAIMED := STARTING.(host := "host", claimedAt := Some(1))
  const READY := RegisteredRow(CLAIMED, Ready, "n1:50051", "4711", "", "token", 90)
  const BUSY := READY.(state := Busy)
  const SUSPECT := BUSY.(state := Unhealthy, fault := TransportSuspect, drainAt := None)
  const REVIVED := SUSPECT.(state := Busy, fault := NoFault, drainAt := None, heartbeat := Some(110))

  const OFFERED := Lease(WISH.req, "key", "secret", Offered, Some(1), 0, None, None, 0, "", 100, 700, 130, 1000, None)
  const ATTACHING := OFFERED.(state := Attaching, heartbeat := 101, expires := 701)
  const ACTIVE := ATTACHING.(state := Active, heartbeat := 102, expires := 702)
  const CLOSING := ACTIVE.(state := Releasing, releaseAt := Some(105))

  const P0 := EMPTY_POOL.(allocations := NODES)
  const P1 := P0.(sessions := map[1 := STARTING])
  const P2 := P1.(sessions := map[1 := CLAIMED])
  const P3 := P1.(sessions := map[1 := READY])
  const P4 := P1.(sessions := map[1 := BUSY], leases := map[1 := OFFERED])
  const P5 := P4.(leases := map[1 := ATTACHING])
  const P6 := P4.(leases := map[1 := ACTIVE])
  const P7 := P6.(sessions := map[1 := SUSPECT])
  const P8 := P7.(leases := map[1 := CLOSING], allocations := map[7 := NODE.(state := AllocDraining, reason := PoolReason)])
  const P9 := P8.(allocations := NODES)
  const P10 := P9.(sessions := map[1 := REVIVED])

  const E0 := At(0, SchedulerStep(map[], NODES))
  const E1 := At(0, ReconcileStep(true, ORDERS))
  const E2 := At(1, ClaimStartStep(1, 7, "n1", "host"))
  const E3 := At(90, RegisterSessionStep(1, "host", "n1:50051", "4711", "", "token", true))
  const E4 := At(100, RequestLeaseStep(WISH))
  const E5 := At(101, AcceptLeaseStep(1, "secret"))
  const E6 := At(102, ActivateLeaseStep(1, "secret", Attaching, 1))
  const E7 := At(103, SuspectTransportStep(1))
  const E8 := At(105, SolverTimeoutStep(1, 1, 7, 1000, OtherFault))
  const E9 := At(106, SchedulerStep(map[], NODES))
  const E10 := At(110, HeartbeatSessionStep(1, "token", true))

  // ----- the first Desktop is opened -----

  /** Phases of the reconciler that find nothing. */
  lemma NothingToRefresh()
    ensures RefreshEmptyDrains(P0) == P0 && RefreshReservations(P0, 0) == P0
    ensures RetireStarts(P0, {}) == P0 && DrainPressured(P0, {}, 0) == P0
  {
    RefreshNothing(P0, 0);
    hide RefreshReservations;
    assert RefreshEmptyDrains(P0).sessions == map[];
    assert RetireStarts(P0, {}).sessions == map[] && DrainPressured(P0, {}, 0).sessions == map[];
  }

  lemma NothingToReap()
    ensures EndOrphans(P0, 0) == P0 && RequeueStale(P0, 0) == P0
  {
    var su := EndOrphans(P0, 0);
    assert su.leases == map[] && su.sessions == map[];
    var sv := RequeueStale(P0, 0);
    assert sv.leases == map[] && sv.sessions == map[] && sv.reservations == map[];
  }

  lemma NothingLapsed()
    ensures ExpireLapsed(P0, SETTINGS, 0) == P0
  {
    var su := ExpireLapsed(P0, SETTINGS, 0);
    assert su.leases == map[] && su.sessions == map[];
  }

  lemma NothingSilent()
    ensures ReapSessions(P0, SETTINGS, 0) == P0
  {
    assert ExpireSessions(P0, SETTINGS, 0).sessions == map[];
    assert LoseReleases(P0, SETTINGS, 0).sessions == map[] && LoseReleases(P0, SETTINGS, 0).leases == map[];
    assert LoseReleases(P0, SETTINGS, 0) == P0;
    assert ExpireStarts(P0, SETTINGS, 0).sessions == map[];
    assert RecycleAllocations(P0, SETTINGS, 0).allocations == NODES;
    var su := ReapUnreachable(P0, SETTINGS, 0);
    assert su.sessions == map[] && su.leases == map[];
  }

  lemma NothingToRestore()
    ensures Restore(P0, true, 0) == P0 && Rotate(P0, SETTINGS, true, 0) == P0
  {
    assert RestoreAllocations(P0).allocations == NODES && RestoreAllocations(P0).sessions == map[];
    assert DrainStranded(P0, 0).sessions == map[];
    assert RequestDrain(P0, Some(Rotating(P0)), 0).sessions == map[];
  }

  lemma NothingToPlace()
    ensures PlaceBatch(P0, SETTINGS, 0) == P0
  {
    assert Eligible(P0, SETTINGS, 0) == {};
    assert Batch({}, 0) == [];
  }

  lemma OneOpened()
    ensures Apply(P0, SETTINGS, ORDERS, 0) == P1
  {
    assert DrainRebalanced(P0, {}, 0).sessions == map[] && DrainSurplus(P0, {}, 0).sessions == map[];
    var rows := seq(|ORDERS.opening|, i requires 0 <= i < |ORDERS.opening| => Opened(ORDERS.opening[i], 0));
    assert rows == [STARTING];
    assert AddSessions(AddSession(P0, STARTING), rows[1..]) == AddSession(P0, STARTING);
    assert NextId(P0.sessions.Keys) == 1;
  }

  lemma Step1()
    ensures Reconcile(P0, SETTINGS, true, ORDERS, 0) == P1
  {
    hide RefreshEmptyDrains, RefreshReservations, RetireStarts, DrainPressured, EndOrphans, RequeueStale, ExpireLapsed;
    hide ReapSessions, Restore, Rotate, PlaceBatch, Apply;
    NothingToRefresh();
    NothingToRestore();
    NothingToReap();
    NothingLapsed();
    NothingSilent();
    NothingToPlace();
    OneOpened();
  }

  lemma Step2()
    ensures ClaimStart(P1, 1, 7, "n1", "host", 1) == P2
  {
  }

  lemma Step3()
    ensures RegisterSession(P2, 1, "host", "n1:50051", "4711", "", "token", true, 90) == P3
  {
  }

  // ----- a lease is placed, accepted and activated -----

  const QUEUED := OFFERED.(state := Queued, session := None, offerExpires := 0)
  const P3q := P3.(leases := map[1 := QUEUED])

  lemma Entered()
    ensures Enter(P3, SETTINGS, WISH, None, 100) == Some((P3q, 1))
  {
    assert WithKey(P3.leases, "key") == {};
    assert NextId(P3.leases.Keys) == 1;
    assert NewLease(P3, SETTINGS, WISH, None, 100) == QUEUED;
  }

  lemma FitsFirst()
    ensures MayPlace(P3q, SETTINGS, 1, 100) && FittingSessions(P3q, SETTINGS, 1, 100) == {1}
  {
    assert AdmittedWithout(P3q, 1) == {};
    assert Holders(P3q.leases, 1) == {} && HeldByOthers(P3q.reservations, 1, 0) == {};
    assert ForeignHolds(P3q.reservations, 1, 0) == {};
    assert LeaseFits(P3q, 1, 1) && PinClaimed(P3q, 1) && Selectable(P3q, SETTINGS, 1, 1, 100);
  }

  lemma Seated()
    ensures RefreshSessions(Seat(P3q, SETTINGS, 1, 1, 100), {1}) == P4
  {
    assert OccupiedSlots(P3q.leases, 1) == {};
    var su := Seat(P3q, SETTINGS, 1, 1, 100);
    assert su.leases == map[1 := OFFERED];
    assert su.sessions == map[1 := READY];
    assert Holder(su.leases[1], 1);
    assert RefreshSessions(su, {1}).sessions == map[1 := BUSY];
  }

  lemma Placed()
    ensures PlaceNamed(P3q, SETTINGS, 1, 100) == P4
  {
    hide MayPlace, FittingSessions, Seat, RefreshSessions;
    FitsFirst();
    Seated();
    assert 1 in Eligible(P3q, SETTINGS, 100);
    assert PlaceOne(P3q, SETTINGS, 1, 100) == P4;
    assert PlaceEach(P3q, SETTINGS, [1], 100) == PlaceEach(P4, SETTINGS, [], 100);
  }

  lemma Step4()
    ensures RequestLease(P3, SETTINGS, WISH, 100) == P4
  {
    hide RefreshReservations, Enter, PlaceNamed;
    RefreshNothing(P3, 100);
    Entered();
    Placed();
  }

  lemma Step5()
    ensures AcceptLease(P4, SETTINGS, 1, "secret", 101) == P5
  {
    assert !TargetGone(P4, SETTINGS, 1, 101) && !Transient(P4, 1, 101);
  }

  /** One of two slots is not a full wave. */
  lemma NotFull()
    ensures GrantBatch({}, P6, 1, 102, false) == P6
  {
    hide RefreshReservations;
    RefreshNothing(P6, 102);
    assert Holders(P6.leases, 1) == {1};
    assert !MaySeal(P6, 1, false);
  }

  lemma Step6()
    ensures ActivateLease({}, P5, SETTINGS, 1, "secret", Attaching, 1, 102) == P6
  {
    hide GrantBatch;
    NotFull();
    assert P5.(leases := P5.leases[1 := ACTIVE]) == P6;
  }

  // ----- the report and the recovery -----

  lemma Step7()
    ensures SuspectTransport(P6, 1) == P7
  {
  }

  lemma Step8()
    ensures SolverTimeout(P7, 1, 1, 7, 1000, OtherFault, 105) == P8
  {
  }

  lemma Step10()
    ensures HeartbeatSession(P9, SETTINGS, 1, "token", true, 110) == P10
  {
    assert Holder(P9.leases[1], 1) && !NoHolder(P9.leases, 1);
    assert Recoverable(P9, 1, true) && !BarrierMayClear(P9, 1, 110);
    var mid := P9.(sessions := P9.sessions[1 := SUSPECT.(heartbeat := Some(110))]);
    assert Recovered(mid, 1, 110) == P10;
  }

  // ----- the whole run -----

  lemma Tail(st: Pool, e: Event, su: Pool, es: seq<Event>)
    requires Next({}, st, e) == su && Fair(st, e) && FairRun({}, su, es)
    ensures FairRun({}, st, [e] + es) && Run({}, st, [e] + es) == Run({}, su, es)
  {
    hide Next, Fair;
    assert ([e] + es)[1..] == es;
  }

  lemma Tail3(a: Pool, e: Event, b: Pool, f: Event, c: Pool, g: Event, d: Pool, es: seq<Event>)
    requires Next({}, a, e) == b && Next({}, b, f) == c && Next({}, c, g) == d
    requires Fair(a, e) && Fair(b, f) && Fair(c, g) && FairRun({}, d, es)
    ensures FairRun({}, a, [e, f, g] + es) && Run({}, a, [e, f, g] + es) == Run({}, d, es)
  {
    hide Next, Fair;
    Tail(c, g, d, es);
    Tail(b, f, c, [g] + es);
    Tail(a, e, b, [f] + ([g] + es));
    assert [e] + ([f] + ([g] + es)) == [e, f, g] + es;
  }

  lemma OpenedSteps()
    ensures Next({}, EMPTY_POOL, E0) == P0 && Next({}, P0, E1) == P1
  {
    hide Reconcile;
    Step1();
  }

  lemma StartedSteps()
    ensures Next({}, P1, E2) == P2 && Next({}, P2, E3) == P3
  {
    hide ClaimStart, RegisterSession;
    Step2();
    Step3();
  }

  lemma ActivatedSteps()
    ensures Next({}, P3, E4) == P4 && Next({}, P4, E5) == P5 && Next({}, P5, E6) == P6
  {
    hide RequestLease, AcceptLease, ActivateLease;
    Step4();
    Step5();
    Step6();
  }

  lemma ReportedSteps()
    ensures Next({}, P6, E7) == P7 && Next({}, P7, E8) == P8
  {
    hide SuspectTransport, SolverTimeout;
    Step7();
    Step8();
  }

  lemma WokenSteps()
    ensures Next({}, P8, E9) == P9 && Next({}, P9, E10) == P10
  {
    hide HeartbeatSession;
    Step10();
  }

  lemma OpenedRun(es: seq<Event>)
    requires FairRun({}, P3, es)
    ensures FairRun({}, EMPTY_POOL, [E0] + ([E1, E2, E3] + es))
    ensures Run({}, EMPTY_POOL, [E0] + ([E1, E2, E3] + es)) == Run({}, P3, es)
  {
    hide Next, Run, FairRun;
    OpenedSteps();
    StartedSteps();
    Tail3(P0, E1, P1, E2, P2, E3, P3, es);
    Tail(EMPTY_POOL, E0, P0, [E1, E2, E3] + es);
  }

  lemma ActivatedRun(es: seq<Event>)
    requires FairRun({}, P6, es)
    ensures FairRun({}, P3, [E4, E5, E6] + es) && Run({}, P3, [E4, E5, E6] + es) == Run({}, P6, es)
  {
    hide Next, Run, FairRun;
    ActivatedSteps();
    Tail3(P3, E4, P4, E5, P5, E6, P6, es);
  }

  lemma ReportedRun()
    ensures FairRun({}, P6, [E7] + ([E8, E9, E10] + [])) && Run({}, P6, [E7] + ([E8, E9, E10] + [])) == P10
  {
    hide Next;
    ReportedSteps();
    WokenSteps();
    Tail3(P7, E8, P8, E9, P9, E10, P10, []);
    Tail(P6, E7, P7, [E8, E9, E10] + []);
  }

  const RUN: seq<Event> :=
    [E0] + ([E1, E2, E3] + ([E4, E5, E6] + ([E7] + ([E8, E9, E10] + []))))

  lemma RunEnds()
    ensures FairRun({}, EMPTY_POOL, RUN) && Run({}, EMPTY_POOL, RUN) == P10
  {
    hide Next, Run, FairRun;
    ReportedRun();
    ActivatedRun([E7] + ([E8, E9, E10] + []));
    OpenedRun([E4, E5, E6] + ([E7] + ([E8, E9, E10] + [])));
  }

  lemma WokenUnbarred()
    ensures P10.sessions[1].state.Busy? && P10.sessions[1].blockedAt.None? && ClosingOn(P10.leases, 1)
    ensures AssignableBarred(P9) && !AssignableBarred(P10)
  {
    assert CLOSING == P10.leases[1];
  }

  lemma NothingStale()
    ensures !StaleReport(P7, 1, 1) && !Recoverable(P8, 1, true) && WakesUncovered(P9, SETTINGS, 1, "token", true)
  {
    assert CLOSING == P9.leases[1];
  }

  /** A reachable database in which a busy Desktop is closing a project and has no barrier:
      no report of the run is stale, and before the scheduler called the allocation usable
      again no heartbeat could wake the Desktop. */
  lemma UnhealthyTimeoutLosesBarrier()
    ensures Run({}, EMPTY_POOL, RUN) == P10 && Reachable({}, P10)
    ensures P10.sessions[1].state.Busy? && P10.sessions[1].blockedAt.None? && ClosingOn(P10.leases, 1)
    ensures AssignableBarred(P9) && !AssignableBarred(P10)
    ensures !StaleReport(P7, 1, 1) && !Recoverable(P8, 1, true) && WakesUncovered(P9, SETTINGS, 1, "token", true)
  {
    hide Run, FairRun, AssignableBarred, StaleReport, Recoverable, WakesUncovered, ClosingOn;
    RunEnds();
    WokenUnbarred();
    NothingStale();
  }
}
