/** The whole reconcile pass: its phases in order, each stated on rows. */
module PoolPasses {
  import opened PoolRows
  import opened PoolTerms
  import opened PoolInvariant
  import opened PoolCalm
  import opened PoolRefresh
  import opened PoolRefreshProofs
  import opened PoolPlacement
  import opened PoolEntry
  import opened PoolCursor
  import opened PoolHost
  import opened PoolHostProofs
  import opened PoolReconcile
  import opened PoolReconcileProofs
  import opened PoolReaping
  import opened PoolHosts
  import opened PoolRefreshing
  import opened PoolFitting

  /** Only Desktop rows change, each as the row function says. */
  ghost predicate SessionsOnly(st: Pool, su: Pool) {
    su == st.(sessions := su.sessions) && su.sessions.Keys == st.sessions.Keys
  }

  // ----- before reaping -----

  /** A busy Desktop that should drain and has no owner left is draining. */
  ghost predicate DrainsSettled(st: Pool, su: Pool) {
    SessionsOnly(st, su) && forall s :: s in st.sessions ==>
      su.sessions[s] == if st.sessions[s].state.Busy? && st.sessions[s].drainAt.Some? && Vacant(st.leases, s)
                        then st.sessions[s].(state := Draining, isSealed := false) else st.sessions[s]
  }

  lemma DrainsAreSettled(st: Pool)
    ensures DrainsSettled(st, RefreshEmptyDrains(st))
  {
    forall s | s in st.sessions
      ensures Vacant(st.leases, s) <==> NoHolder(st.leases, s)
    {
      SameOwners(st.leases, s);
    }
    hide Vacant, NoHolder;
  }

  ghost predicate StartsRetired(st: Pool, su: Pool, which: set<nat>) {
    SessionsOnly(st, su) && forall s :: s in st.sessions ==>
      su.sessions[s] == if s in which && st.sessions[s].state.Starting? && st.sessions[s].host == ""
                        then st.sessions[s].(state := SessionFailed, fault := OtherFault) else st.sessions[s]
  }

  lemma StartsAreRetired(st: Pool, which: set<nat>)
    ensures StartsRetired(st, RetireStarts(st, which), which)
  {
  }

  /** A ready Desktop under storage pressure drains, a busy one drains when it empties. */
  ghost predicate PressureRelieved(st: Pool, su: Pool, which: set<nat>, now: int) {
    SessionsOnly(st, su) && forall s :: s in st.sessions ==>
      su.sessions[s] == if s in which && Works(st.sessions[s]) && st.sessions[s].drainAt.None?
                        then st.sessions[s].(state := if st.sessions[s].state.Busy? then Busy else Draining,
                                             fault := OtherFault, drainAt := Some(now))
                        else st.sessions[s]
  }

  lemma PressureIsRelieved(st: Pool, which: set<nat>, now: int)
    ensures PressureRelieved(st, DrainPressured(st, which, now), which, now)
  {
  }

  /** Drains, the refresh, and drains again. */
  ghost predicate Tidied(st: Pool, su: Pool, now: int) {
    exists a: Pool, b: Pool :: DrainsSettled(st, a) && RefreshRuns(a, b, now) && DrainsSettled(b, su)
  }

  /** The refresh, and drains that it emptied. */
  ghost predicate TidiedAgain(st: Pool, su: Pool, now: int) {
    exists a: Pool :: RefreshRuns(st, a, now) && DrainsSettled(a, su)
  }

  ghost predicate Prepared(st: Pool, su: Pool, cfg: Config, execute: bool, orders: Orders, now: int) {
    if !(execute && cfg.operational) then Tidied(st, su, now)
    else
      exists a: Pool, b: Pool, c: Pool ::
        Tidied(st, a, now) && StartsRetired(a, b, orders.blockedStarts) && PressureRelieved(b, c, orders.pressured, now)
        && (if c == b then su == b else TidiedAgain(c, su, now))
  }

  lemma Tidies(st: Pool, now: int)
    ensures Tidied(st, RefreshEmptyDrains(RefreshReservations(RefreshEmptyDrains(st), now)), now)
    ensures TidiedAgain(st, RefreshEmptyDrains(RefreshReservations(st, now)), now)
  {
    hide DrainsSettled, RefreshRuns, RefreshEmptyDrains, RefreshReservations;
    DrainsAreSettled(st);
    var a := RefreshEmptyDrains(st);
    RefreshOutcome(a, now);
    DrainsAreSettled(RefreshReservations(a, now));
    RefreshOutcome(st, now);
    DrainsAreSettled(RefreshReservations(st, now));
  }

  lemma Prepares(st: Pool, cfg: Config, execute: bool, orders: Orders, now: int)
    ensures Prepared(st, Prepare(st, cfg, execute, orders, now), cfg, execute, orders, now)
  {
    hide Tidied, TidiedAgain, StartsRetired, PressureRelieved, RefreshEmptyDrains, RefreshReservations, RetireStarts, DrainPressured;
    Tidies(st, now);
    var a := RefreshEmptyDrains(RefreshReservations(RefreshEmptyDrains(st), now));
    var b := RetireStarts(a, orders.blockedStarts);
    var c := DrainPressured(b, orders.pressured, now);
    StartsAreRetired(a, orders.blockedStarts);
    PressureIsRelieved(b, orders.pressured, now);
    Tidies(c, now);
  }

  // ----- rotation of old allocations -----

  /** The pool's own allocation reached the age limit. */
  predicate TooOld(x: Allocation, cfg: Config, now: int) {
    && cfg.allocationMaxAge != 0 && x.created <= now - cfg.allocationMaxAge
    && (x.state.Warm? || x.state.InUse?) && !x.reason.ForeignReason? && !x.reason.BlankReason?
  }

  predicate RotatesAway(allocations: Allocations, a: nat) {
    a in allocations && allocations[a].state.AllocDraining? && allocations[a].reason.AgeRotation?
  }

  /** A working Desktop, or one that may still come back, is asked to drain. */
  function AskedToDrain(x: Session, asked: bool, now: int): Session {
    if asked && (Works(x) || (x.state.Unhealthy? && x.fault.HeartbeatTimeout? && x.quarantine.NoQuarantine?))
    then x.(state := Draining, fault := OtherFault, drainAt := Armed(x.drainAt, now)) else x
  }

  ghost predicate OldRotated(st: Pool, su: Pool, cfg: Config, now: int) {
    && su == st.(allocations := su.allocations, sessions := su.sessions)
    && su.allocations.Keys == st.allocations.Keys && su.sessions.Keys == st.sessions.Keys
    && (forall a :: a in st.allocations ==>
          su.allocations[a] == if TooOld(st.allocations[a], cfg, now)
                               then st.allocations[a].(state := AllocDraining, reason := AgeRotation) else st.allocations[a])
    && (forall s :: s in st.sessions ==>
          su.sessions[s] == AskedToDrain(st.sessions[s], RotatesAway(su.allocations, st.sessions[s].allocation), now))
  }

  lemma RotatedAllocations(st: Pool, cfg: Config, now: int)
    ensures
      var su := RotateAllocations(st, cfg, now);
      && su == st.(allocations := su.allocations) && su.allocations.Keys == st.allocations.Keys
      && (forall a :: a in st.allocations ==>
            su.allocations[a] == if TooOld(st.allocations[a], cfg, now)
                                 then st.allocations[a].(state := AllocDraining, reason := AgeRotation)
                                 else st.allocations[a])
  {
  }

  lemma AskedRows(st: Pool, which: Option<set<nat>>, now: int)
    ensures
      var su := RequestDrain(st, which, now);
      && SessionsOnly(st, su)
      && (forall s :: s in st.sessions ==>
            su.sessions[s] == AskedToDrain(st.sessions[s], which.None? || st.sessions[s].allocation in which.value, now))
  {
  }

  /** Every Desktop that works, or may still come back, is asked to drain. */
  ghost predicate AllAskedToDrain(st: Pool, su: Pool, now: int) {
    SessionsOnly(st, su) && forall s :: s in st.sessions ==> su.sessions[s] == AskedToDrain(st.sessions[s], true, now)
  }

  lemma AllAreAsked(st: Pool, now: int)
    ensures AllAskedToDrain(st, RequestDrain(st, None, now), now)
  {
    hide RequestDrain, AskedToDrain;
    AskedRows(st, None, now);
  }

  lemma OldAreRotated(st: Pool, cfg: Config, now: int)
    ensures OldRotated(st, Rotate(st, cfg, true, now), cfg, now)
  {
    hide RotateAllocations, RequestDrain, TooOld, AskedToDrain;
    var mid := RotateAllocations(st, cfg, now);
    RotatedAllocations(st, cfg, now);
    AskedRows(mid, Some(Rotating(mid)), now);
    assert forall a :: a in Rotating(mid) <==> RotatesAway(mid.allocations, a);
    hide Rotating, RotatesAway;
  }

  // ----- allocations that return to service -----

  /** The allocation drains for recycling, some Desktop of it works, and none is unhealthy or
      quarantined. */
  predicate Recovers(st: Pool, a: nat) {
    && a in st.allocations && st.allocations[a].state.AllocDraining?
    && (st.allocations[a].reason.FaultedRecycle? || st.allocations[a].reason.UnhealthyRecycle?)
    && (exists s :: s in st.sessions && st.sessions[s].allocation == a && Works(st.sessions[s]))
    && (forall s :: s in st.sessions && st.sessions[s].allocation == a && !SessionOver(st.sessions[s]) ==>
          !st.sessions[s].state.Unhealthy? && st.sessions[s].quarantine.NoQuarantine?)
  }

  /** Its working Desktops need not drain any more; a ready one elsewhere, on a known
      allocation out of service, drains. */
  function Resettled(x: Session, recovers: bool, stranded: bool, now: int): Session {
    var y := if recovers && Works(x) then x.(drainAt := None) else x;
    if y.state.Ready? && stranded then y.(state := Draining, drainAt := Armed(y.drainAt, now)) else y
  }

  ghost predicate ServiceRestored(st: Pool, su: Pool, now: int) {
    && su == st.(allocations := su.allocations, sessions := su.sessions)
    && su.allocations.Keys == st.allocations.Keys && su.sessions.Keys == st.sessions.Keys
    && (forall a :: a in st.allocations ==>
          su.allocations[a] == if Recovers(st, a) then st.allocations[a].(state := InUse, reason := ProjectDemand)
                               else st.allocations[a])
    && (forall s :: s in st.sessions ==>
          var a := st.sessions[s].allocation;
          su.sessions[s] == Resettled(st.sessions[s], Recovers(st, a), a in su.allocations && !InService(su.allocations, a), now))
  }

  lemma RestoredRows(st: Pool)
    ensures
      var su := RestoreAllocations(st);
      && su == st.(allocations := su.allocations, sessions := su.sessions)
      && su.allocations.Keys == st.allocations.Keys && su.sessions.Keys == st.sessions.Keys
      && (forall a :: a in st.allocations ==>
            su.allocations[a] == if Recovers(st, a) then st.allocations[a].(state := InUse, reason := ProjectDemand)
                                 else st.allocations[a])
      && (forall s :: s in st.sessions ==>
            su.sessions[s] == if Recovers(st, st.sessions[s].allocation) && Works(st.sessions[s])
                              then st.sessions[s].(drainAt := None) else st.sessions[s])
  {
    forall a | a in st.allocations
      ensures Restorable(st, a) <==> Recovers(st, a)
    {
      RecoversIs(st, a);
    }
    assert forall a :: Recovers(st, a) ==> a in st.allocations;
    hide Restorable, Recovers;
  }

  lemma RecoversIs(st: Pool, a: nat)
    requires a in st.allocations
    ensures Restorable(st, a) <==> Recovers(st, a)
  {
  }

  lemma StrandedRows(st: Pool, now: int)
    ensures
      var su := DrainStranded(st, now);
      && SessionsOnly(st, su)
      && (forall s :: s in st.sessions ==>
            var x := st.sessions[s];
            su.sessions[s] == if x.state.Ready? && x.allocation in st.allocations && !InService(st.allocations, x.allocation)
                              then x.(state := Draining, drainAt := Armed(x.drainAt, now)) else x)
  {
  }

  lemma ServiceIsRestored(st: Pool, now: int)
    ensures ServiceRestored(st, Restore(st, true, now), now)
  {
    hide RestoreAllocations, DrainStranded, Recovers, InService, Armed;
    RestoredRows(st);
    StrandedRows(RestoreAllocations(st), now);
  }

  // ----- the plan -----

  predicate NoSlotKept(rs: Reservations, s: nat) {
    forall r :: r in rs && rs[r].session == s ==> !KeepsSlot(rs[r])
  }

  /** A spare ready Desktop drains for rebalancing, and any working one for the ceiling, unless
      a slot of it is kept for somebody. */
  function GivenUp(st: Pool, x: Session, rebalanced: bool, surplus: bool, kept: bool, now: int): Session {
    if kept then x
    else if Works(x) && surplus then x.(state := Draining, drainAt := Some(now))
    else if x.state.Ready? && rebalanced && !x.isSealed && x.drainAt.None? && x.blockedAt.None?
            && InService(st.allocations, x.allocation)
    then x.(state := Draining, drainAt := Some(now))
    else x
  }

  /** A new row: nothing is known about the Desktop but where it should start. */
  function NewDesktop(o: Opening, now: int): Session {
    Session(o.allocation, o.node, o.slots, 1, "", Starting, false, 0, None, None,
            NoQuarantine, None, NoFault, None, None, now, None, None, "", "", "", "")
  }

  ghost predicate PlanApplied(st: Pool, su: Pool, orders: Orders, now: int) {
    var n := NextId(st.sessions.Keys);
    && su == st.(sessions := su.sessions)
    && (forall s :: s in su.sessions <==> s in st.sessions || n <= s < n + |orders.opening|)
    && (forall s :: s in st.sessions ==>
          su.sessions[s] == GivenUp(st, st.sessions[s], s in orders.rebalance, s in orders.surplus,
                                    !NoSlotKept(st.reservations, s), now))
    && (forall i :: 0 <= i < |orders.opening| ==> su.sessions[n + i] == NewDesktop(orders.opening[i], now))
  }

  lemma GivenUpRows(st: Pool, rebalance: set<nat>, surplus: set<nat>, now: int)
    requires 0 !in st.reservations
    ensures
      var su := DrainSurplus(DrainRebalanced(st, rebalance, now), surplus, now);
      && SessionsOnly(st, su)
      && (forall s :: s in st.sessions ==>
            su.sessions[s] == GivenUp(st, st.sessions[s], s in rebalance, s in surplus, !NoSlotKept(st.reservations, s), now))
  {
    forall s
      ensures NothingHeld(st.reservations, s) <==> NoSlotKept(st.reservations, s)
    {
      NothingKept(st.reservations, s);
    }
    hide NothingHeld, NoSlotKept;
    GivenUpRow(st, DrainRebalanced(st, rebalance, now), rebalance, surplus, now);
    GivenUpFrame(st, rebalance, surplus, now);
  }

  lemma GivenUpRow(st: Pool, mid: Pool, rebalance: set<nat>, surplus: set<nat>, now: int)
    requires mid == DrainRebalanced(st, rebalance, now)
    requires forall s :: NothingHeld(st.reservations, s) <==> NoSlotKept(st.reservations, s)
    ensures forall s :: s in st.sessions ==>
      s in mid.sessions && DrainSurplus(mid, surplus, now).sessions[s]
      == GivenUp(st, st.sessions[s], s in rebalance, s in surplus, !NoSlotKept(st.reservations, s), now)
  {
    hide NothingHeld, NoSlotKept;
  }

  lemma GivenUpFrame(st: Pool, rebalance: set<nat>, surplus: set<nat>, now: int)
    ensures SessionsOnly(st, DrainSurplus(DrainRebalanced(st, rebalance, now), surplus, now))
  {
    hide NothingHeld;
  }

  lemma NothingKept(rs: Reservations, s: nat)
    requires 0 !in rs
    ensures NothingHeld(rs, s) <==> NoSlotKept(rs, s)
  {
    if !NoSlotKept(rs, s) {
      var r :| r in rs && rs[r].session == s && KeepsSlot(rs[r]);
      assert r in HeldByOthers(rs, s, 0);
    }
  }

  lemma NextAfter(ids: set<nat>)
    ensures NextId(ids + {NextId(ids)}) == NextId(ids) + 1
  {
    var n := NextId(ids);
    var m := NextId(ids + {n});
    assert n in ids + {n};
  }

  /** The rows are added under ids from `n` on. */
  ghost predicate Appended(ss: Sessions, ts: Sessions, xs: seq<Session>, n: nat) {
    && (forall s :: s in ts <==> s in ss || n <= s < n + |xs|)
    && (forall s :: s in ss && s in ts ==> ts[s] == ss[s])
    && (forall i :: n <= i < n + |xs| && i in ts ==> ts[i] == xs[i - n])
  }

  lemma AppendedFirst(ss: Sessions, ts: Sessions, xs: seq<Session>, n: nat)
    requires xs != [] && n !in ss && (forall s :: s in ss ==> s < n)
    requires Appended(ss[n := xs[0]], ts, xs[1..], n + 1)
    ensures Appended(ss, ts, xs, n)
  {
    forall i | n <= i < n + |xs| && i in ts
      ensures ts[i] == xs[i - n]
    {
      if i > n {
        assert ts[i] == xs[1..][i - (n + 1)];
      }
    }
  }

  lemma {:induction false} AddedFrame(st: Pool, xs: seq<Session>)
    ensures AddSessions(st, xs) == st.(sessions := AddSessions(st, xs).sessions)
    decreases |xs|
  {
    hide NextId;
    if xs != [] {
      AddedFrame(AddSession(st, xs[0]), xs[1..]);
    }
  }

  /** New rows get the next ids in order. */
  lemma {:induction false} AddedRows(st: Pool, xs: seq<Session>)
    ensures Appended(st.sessions, AddSessions(st, xs).sessions, xs, NextId(st.sessions.Keys))
    decreases |xs|
  {
    hide NextId;
    if xs == [] {
      assert AddSessions(st, xs) == st;
    } else {
      var n := NextId(st.sessions.Keys);
      var mid := AddSession(st, xs[0]);
      NextAfter(st.sessions.Keys);
      AddedRows(mid, xs[1..]);
      AddedStep(st, mid, AddSessions(mid, xs[1..]).sessions, xs, n);
      assert AddSessions(st, xs) == AddSessions(mid, xs[1..]);
    }
  }

  lemma AddedStep(st: Pool, mid: Pool, ts: Sessions, xs: seq<Session>, n: nat)
    requires xs != [] && n == NextId(st.sessions.Keys) && mid == AddSession(st, xs[0])
    requires NextId(st.sessions.Keys + {n}) == n + 1
    requires Appended(mid.sessions, ts, xs[1..], NextId(mid.sessions.Keys))
    ensures Appended(st.sessions, ts, xs, n)
  {
    hide NextId, Appended;
    assert mid.sessions.Keys == st.sessions.Keys + {n};
    AppendedFirst(st.sessions, ts, xs, n);
  }

  /** What the drained and extended table says of old rows and of new ones. */
  lemma PlanRows(st: Pool, drained: Pool, su: Pool, orders: Orders, rows: seq<Session>, now: int)
    requires SessionsOnly(st, drained) && su == drained.(sessions := su.sessions)
    requires Appended(drained.sessions, su.sessions, rows, NextId(st.sessions.Keys))
    requires forall s :: s in st.sessions ==>
      drained.sessions[s] == GivenUp(st, st.sessions[s], s in orders.rebalance, s in orders.surplus,
                                     !NoSlotKept(st.reservations, s), now)
    requires |rows| == |orders.opening| && forall i :: 0 <= i < |rows| ==> rows[i] == NewDesktop(orders.opening[i], now)
    ensures PlanApplied(st, su, orders, now)
  {
    hide NextId, GivenUp, NoSlotKept, NewDesktop;
    var n := NextId(st.sessions.Keys);
    forall i | 0 <= i < |orders.opening|
      ensures n + i in su.sessions && su.sessions[n + i] == NewDesktop(orders.opening[i], now)
    {
      assert su.sessions[n + i] == rows[n + i - n];
    }
  }

  lemma PlanIsApplied(st: Pool, cfg: Config, orders: Orders, now: int)
    requires 0 !in st.reservations
    ensures PlanApplied(st, Apply(st, cfg, orders, now), orders, now)
  {
    hide DrainRebalanced, DrainSurplus, NextId, GivenUp, NoSlotKept, AddSessions, PlanApplied, Appended;
    var drained := DrainSurplus(DrainRebalanced(st, orders.rebalance, now), orders.surplus, now);
    GivenUpRows(st, orders.rebalance, orders.surplus, now);
    var rows := seq(|orders.opening|, i requires 0 <= i < |orders.opening| => Opened(orders.opening[i], now));
    AddedRows(drained, rows);
    AddedFrame(drained, rows);
    assert drained.sessions.Keys == st.sessions.Keys;
    PlanRows(st, drained, AddSessions(drained, rows), orders, rows, now);
    assert AddSessions(drained, rows) == Apply(st, cfg, orders, now);
  }

  // ----- the whole pass -----

  /** The phases of a pass, each on what the one before left: tables are tidied and start orders
      carried out, old allocations rotate, clients and hosts are judged, allocations return to
      service, queued leases have their turns, and the plan is applied. Without execution,
      nothing is rotated, restored, placed or applied. */
  ghost predicate PassRuns(st: Pool, su: Pool, cfg: Config, execute: bool, orders: Orders, now: int) {
    exists prepared: Pool, rotated: Pool, clients: Pool, hosts: Pool, ready: Pool ::
      Prepared(st, prepared, cfg, execute, orders, now) && MayRotate(prepared, rotated, cfg, execute, now)
      && ClientsReaped(rotated, clients, cfg, now) && HostsReaped(clients, hosts, cfg, now)
      && MayRestore(hosts, ready, execute, now)
      && MayApply(ready, su, cfg, execute && cfg.operational, orders, now)
  }

  ghost predicate MayRotate(st: Pool, su: Pool, cfg: Config, execute: bool, now: int) {
    if execute then OldRotated(st, su, cfg, now) else su == st
  }

  ghost predicate MayRestore(st: Pool, su: Pool, execute: bool, now: int) {
    if execute then ServiceRestored(st, su, now) else su == st
  }

  ghost predicate MayApply(st: Pool, su: Pool, cfg: Config, execute: bool, orders: Orders, now: int) {
    if execute then PlacedAndApplied(st, su, cfg, orders, now) else su == st
  }

  ghost predicate PlacedAndApplied(st: Pool, su: Pool, cfg: Config, orders: Orders, now: int) {
    var batch := Batch(Polling(st, cfg, now), st.cursor);
    exists placed: Pool ::
      Turns(st.(cursor := NextCursor(batch)), placed, cfg, batch, now) && PlanApplied(placed, su, orders, now)
  }

  lemma NoZeroReservation(safe: set<string>, st: Pool)
    requires Inv(safe, st)
    ensures 0 !in st.reservations
  {
  }

  lemma PlacesAndApplies(safe: set<string>, st: Pool, cfg: Config, orders: Orders, now: int)
    requires Inv(safe, st) && cfg.operational
    ensures PlacedAndApplied(st, Apply(PlaceBatch(st, cfg, now), cfg, orders, now), cfg, orders, now)
  {
    hide Inv, Turns, PlanApplied, PlaceBatch, Apply, Kept, Batch, Polling;
    var placed := PlaceBatch(st, cfg, now);
    PassOutcome(safe, st, cfg, now);
    PlaceBatchKept(safe, st, cfg, now);
    KeptInv(safe, cfg.target, NOTHING, st, placed);
    NoZeroReservation(safe, placed);
    PlanIsApplied(placed, cfg, orders, now);
  }

  lemma RotatedOrNot(st: Pool, cfg: Config, execute: bool, now: int)
    ensures MayRotate(st, Rotate(st, cfg, execute, now), cfg, execute, now)
  {
    hide OldRotated, RequestDrain, RotateAllocations;
    OldAreRotated(st, cfg, now);
  }

  lemma RestoredOrNot(st: Pool, execute: bool, now: int)
    ensures MayRestore(st, Restore(st, execute, now), execute, now)
  {
    hide ServiceRestored, DrainStranded, RestoreAllocations;
    ServiceIsRestored(st, now);
  }

  /** A reconcile pass is exactly its phases. */
  lemma ReconcileOutcome(safe: set<string>, st: Pool, cfg: Config, execute: bool, orders: Orders, now: int)
    requires Inv(safe, st)
    ensures PassRuns(st, Reconcile(st, cfg, execute, orders, now), cfg, execute, orders, now)
  {
    hide Inv, Ebbs, Prepare, Rotate, ReapLeases, ReapSessions, Restore, PlaceBatch, Apply;
    hide Prepared, MayRotate, ClientsReaped, HostsReaped, MayRestore, PlacedAndApplied;
    var target := cfg.target;
    var prepared := Prepare(st, cfg, execute, orders, now);
    Prepares(st, cfg, execute, orders, now);
    PrepareEbbs(safe, target, st, cfg, execute, orders, now);
    EbbsInv(safe, target, st, prepared);
    var rotated := Rotate(prepared, cfg, execute, now);
    RotatedOrNot(prepared, cfg, execute, now);
    RotateEbbs(safe, target, prepared, cfg, execute, now);
    EbbsInv(safe, target, prepared, rotated);
    var clients := ReapLeases(rotated, cfg, now);
    ClientsAreReaped(safe, rotated, cfg, now);
    ReapLeasesEbbs(safe, target, rotated, cfg, now);
    EbbsInv(safe, target, rotated, clients);
    var hosts := ReapSessions(clients, cfg, now);
    HostsAreReaped(clients, cfg, now);
    ReapSessionsEbbs(safe, target, clients, cfg, now);
    EbbsInv(safe, target, clients, hosts);
    var ready := Restore(hosts, execute, now);
    RestoredOrNot(hosts, execute, now);
    RestoreEbbs(safe, target, hosts, execute, now);
    EbbsInv(safe, target, hosts, ready);
    var su := Reconcile(st, cfg, execute, orders, now);
    if execute && cfg.operational {
      PlacesAndApplies(safe, ready, cfg, orders, now);
    }
    assert MayApply(ready, su, cfg, execute && cfg.operational, orders, now);
    hide MayApply, Reconcile;
  }
}
