/** Every host transaction keeps the pool. */
module PoolHostProofs {
  import opened PoolRows
  import opened PoolInvariant
  import opened PoolSettle
  import opened PoolCalm
  import opened PoolRefresh
  import opened PoolRefreshProofs
  import opened PoolPlacement
  import opened PoolPlacementProofs
  import opened PoolCursor
  import opened PoolClient
  import opened PoolHost

  /** Tasks, allocations and the cursor are outside the invariant. */
  lemma ElsewhereEbbs(safe: set<string>, target: int, st: Pool, su: Pool)
    requires Inv(safe, st) && su.sessions == st.sessions && su.leases == st.leases && su.reservations == st.reservations
    ensures Ebbs(safe, target, st, su)
  {
    hide Inv, Ebbs;
    SessionsOnlyEbbs(safe, target, st, su);
  }

  lemma ThenElsewhere(safe: set<string>, target: int, st: Pool, su: Pool, sv: Pool)
    requires Ebbs(safe, target, st, su)
    requires sv.sessions == su.sessions && sv.leases == su.leases && sv.reservations == su.reservations
    ensures Ebbs(safe, target, st, sv)
  {
    hide Ebbs, Inv;
    EbbsInv(safe, target, st, su);
    ElsewhereEbbs(safe, target, su, sv);
    EbbChain(safe, target, st, su, sv);
  }

  lemma BootedRow(safe: set<string>, st: Pool, s: nat)
    requires Inv(safe, st) && s in st.sessions
    ensures Booted(st.sessions[s])
  {
  }

  lemma StartingEmpty(ss: Sessions, ls: Leases, s: nat)
    requires LeaseRows(ss, ls) && s in ss && (ss[s].state.Starting? || ss[s].state.Over())
    ensures NoHolder(ls, s)
  {
    forall id | id in ls
      ensures !Holder(ls[id], s)
    {
      assert LeaseRow(ss, ls[id]);
    }
  }

  // ----- starting a Desktop -----

  lemma ClaimStartEbbs(safe: set<string>, target: int, st: Pool, s: nat, allocation: nat, node: string, host: string, now: int)
    requires Inv(safe, st)
    ensures Ebbs(safe, target, st, ClaimStart(st, s, allocation, node, host, now))
  {
    hide Inv, Ebbs;
    var su := ClaimStart(st, s, allocation, node, host, now);
    if su == st {
      EbbSelf(safe, target, st);
    } else {
      var y := su.sessions[s];
      assert SessionMove(st.sessions[s], y, NoHolder(st.leases, s));
      hide NoHolder, SessionMove;
      OneSessionEbbs(safe, target, st, s, y);
    }
  }

  lemma RegisterSessionEbbs(safe: set<string>, target: int, st: Pool, s: nat, host: string, endpoint: string,
                            process: string, profile: string, token: string, enabled: bool, now: int)
    requires Inv(safe, st)
    ensures Ebbs(safe, target, st, RegisterSession(st, s, host, endpoint, process, profile, token, enabled, now))
  {
    hide Inv, Ebbs, MayRegister, RegisteredRow, RestoreAllocation;
    var su := RegisterSession(st, s, host, endpoint, process, profile, token, enabled, now);
    if s !in st.sessions || !MayRegister(st, s, host, profile) {
      EbbSelf(safe, target, st);
    } else {
      BootedRow(safe, st, s);
      RegisterEffect(st, s, host, endpoint, process, profile, token, enabled, now);
      hide RegisterSession;
      var y := su.sessions[s];
      RegisterRow(st, s, host, y.state, endpoint, process, profile, token, now);
      hide SessionMove, FirmSession, RestSession, HeldSession;
      OneSessionEbbs(safe, target, st, s, y);
      ThenElsewhere(safe, target, st, st.(sessions := st.sessions[s := y]), su);
    }
  }

  lemma RegisterEffect(st: Pool, s: nat, host: string, endpoint: string, process: string, profile: string,
                       token: string, enabled: bool, now: int)
    requires s in st.sessions && MayRegister(st, s, host, profile)
    ensures
      var su := RegisterSession(st, s, host, endpoint, process, profile, token, enabled, now);
      && s in su.sessions && su.leases == st.leases && su.reservations == st.reservations
      && su.sessions == st.sessions[s := su.sessions[s]]
      && (su.sessions[s].state.Ready? || su.sessions[s].state.Draining?)
      && su.sessions[s] == RegisteredRow(st.sessions[s], su.sessions[s].state, endpoint, process, profile, token, now)
  {
  }

  lemma RegisterRow(st: Pool, s: nat, host: string, state: SessionState, endpoint: string, process: string,
                    profile: string, token: string, now: int)
    requires s in st.sessions && MayRegister(st, s, host, profile) && Booted(st.sessions[s])
    requires state.Ready? || state.Draining?
    ensures
      var x := st.sessions[s];
      var y := RegisteredRow(x, state, endpoint, process, profile, token, now);
      SessionMove(x, y, NoHolder(st.leases, s)) && FirmSession(x, y) && RestSession(x, y) && HeldSession(x, y)
  {
    hide NoHolder;
  }

  lemma FailStartEbbs(safe: set<string>, target: int, st: Pool, s: nat, host: string)
    requires Inv(safe, st)
    ensures Ebbs(safe, target, st, FailStart(st, s, host))
  {
    hide Ebbs, LeaseRows, Sharing, ReservationRows, Pins, Cohorts, Capacity, WaveOrder;
    if s in st.sessions && st.sessions[s].state.Starting? && st.sessions[s].host == host {
      StartingEmpty(st.sessions, st.leases, s);
      OneSessionEbbs(safe, target, st, s, st.sessions[s].(state := SessionFailed, fault := OtherFault));
    } else {
      EbbSelf(safe, target, st);
    }
  }

  // ----- faults, drains, reaping -----

  /** The unconfirmed fault lifts a quarantine. */
  predicate Pardons(st: Pool, s: nat, token: string, confirmed: bool) {
    !confirmed && HostAuthorized(st, s, token) && (st.sessions[s].state.Assignable() || st.sessions[s].state.Unhealthy?)
  }

  lemma OneSessionKept(safe: set<string>, target: int, may: May, st: Pool, s: nat, x: Session)
    requires Inv(safe, st) && s in st.sessions
    requires SessionMove(st.sessions[s], x, NoHolder(st.leases, s)) && (x.state.Over() ==> st.sessions[s].state.Over())
    requires FirmSession(st.sessions[s], x)
    requires s in may.wakes || RestSession(st.sessions[s], x)
    requires s in may.pardons || HeldSession(st.sessions[s], x)
    ensures Kept(safe, target, may, st, st.(sessions := st.sessions[s := x]))
  {
    hide Inv, Calm, Shrinks;
    var su := st.(sessions := st.sessions[s := x]);
    OneSessionSettles(may, st, s, x);
    hide Settles, FirmExcept, Quiet, EndsEmpty, SessionMove, FirmSession, RestSession, HeldSession;
    assert Barred(st) ==> Barred(su) by {
      if Barred(st) {
        OneSessionBarred(st, s, x);
      }
    }
    hide Barred;
    assert Arms(st, su);
    SettleKept(safe, target, may, st, su);
  }

  lemma OneSessionSettles(may: May, st: Pool, s: nat, x: Session)
    requires s in st.sessions && SessionMove(st.sessions[s], x, NoHolder(st.leases, s))
    requires s in may.clears || FirmSession(st.sessions[s], x)
    requires x.state.Over() ==> st.sessions[s].state.Over()
    requires s in may.wakes || RestSession(st.sessions[s], x)
    requires s in may.pardons || HeldSession(st.sessions[s], x)
    ensures
      var su := st.(sessions := st.sessions[s := x]);
      Settles(st, su) && FirmExcept(may, st, su) && Quiet(may, st, su) && EndsEmpty(may.closes, st, su)
  {
    hide Settles, FirmExcept, SessionMove, FirmSession, RestSession, HeldSession;
    var su := st.(sessions := st.sessions[s := x]);
    OneRowSettles(st, s, x);
    OneRowFirm(may, st, s, x);
    assert Quiet(may, st, su) && EndsEmpty(may.closes, st, su);
  }

  lemma OneRowSettles(st: Pool, s: nat, x: Session)
    requires s in st.sessions && SessionMove(st.sessions[s], x, NoHolder(st.leases, s))
    ensures Settles(st, st.(sessions := st.sessions[s := x]))
  {
    hide SessionMove, NoHolder, Settles;
    var su := st.(sessions := st.sessions[s := x]);
    forall t | t in st.sessions
      ensures SessionMove(st.sessions[t], su.sessions[t], NoHolder(st.leases, t))
    {
      SameRow(st.sessions[t], NoHolder(st.leases, t));
    }
    LeasesAlone(st, su);
  }

  lemma OneRowFirm(may: May, st: Pool, s: nat, x: Session)
    requires s in st.sessions
    requires s in may.clears || FirmSession(st.sessions[s], x)
    requires s in may.wakes || RestSession(st.sessions[s], x)
    requires s in may.pardons || HeldSession(st.sessions[s], x)
    ensures FirmExcept(may, st, st.(sessions := st.sessions[s := x]))
  {
  }

  lemma OneSessionBarred(st: Pool, s: nat, x: Session)
    requires Barred(st) && s in st.sessions && FirmSession(st.sessions[s], x)
    ensures Barred(st.(sessions := st.sessions[s := x]))
  {
    forall id | id in st.leases
      ensures BehindBarrier(st.sessions[s := x], st.leases[id])
    {
      assert BehindBarrier(st.sessions, st.leases[id]);
    }
  }

  lemma SessionFaultKept(safe: set<string>, target: int, st: Pool, s: nat, token: string, confirmed: bool,
                         fault: Fault, now: int)
    requires Inv(safe, st)
    ensures Kept(safe, target, NOTHING.(pardons := if Pardons(st, s, token, confirmed) then {s} else {}), st,
                 SessionFault(st, s, token, confirmed, fault, now))
  {
    if s in st.sessions {
      BootedRow(safe, st, s);
    }
    hide Inv, Kept, Ebbs, DrainAllocation;
    var su := SessionFault(st, s, token, confirmed, fault, now);
    if Pardons(st, s, token, confirmed) {
      OneSessionKept(safe, target, NOTHING.(pardons := {s}), st, s, su.sessions[s]);
    } else if !HostAuthorized(st, s, token) || !confirmed {
      EbbSelf(safe, target, st);
      EbbKept(safe, target, st, su);
    } else {
      ConfirmedFaultEbbs(safe, target, st, s, token, fault, now);
      EbbKept(safe, target, st, su);
    }
  }

  lemma EbbKept(safe: set<string>, target: int, st: Pool, su: Pool)
    requires Ebbs(safe, target, st, su)
    ensures Kept(safe, target, NOTHING, st, su)
  {
  }

  lemma ConfirmedFaultEbbs(safe: set<string>, target: int, st: Pool, s: nat, token: string, fault: Fault, now: int)
    requires Inv(safe, st) && HostAuthorized(st, s, token) && Booted(st.sessions[s])
    ensures Ebbs(safe, target, st, SessionFault(st, s, token, true, fault, now))
  {
    hide Inv, Ebbs;
    var su := SessionFault(st, s, token, true, fault, now);
    if su.sessions == st.sessions {
      ElsewhereEbbs(safe, target, st, su);
    } else {
      OneSessionEbbs(safe, target, st, s, su.sessions[s]);
      ThenElsewhere(safe, target, st, st.(sessions := st.sessions[s := su.sessions[s]]), su);
    }
  }

  lemma RequestDrainEbbs(safe: set<string>, target: int, st: Pool, which: Option<set<nat>>, now: int)
    requires Inv(safe, st)
    ensures Ebbs(safe, target, st, RequestDrain(st, which, now))
  {
    hide Inv, Ebbs, NoHolder, RowEbbs;
    var su := RequestDrain(st, which, now);
    forall s | s in st.sessions
      ensures s in su.sessions && RowEbbs(st.sessions[s], su.sessions[s], NoHolder(st.leases, s))
    {
      RowSubsides(st.sessions[s], su.sessions[s], NoHolder(st.leases, s));
    }
    hide *;
    RowsEbb(safe, target, st, su);
  }

  lemma ReapDeadSessionEbbs(safe: set<string>, target: int, st: Pool, s: nat, seen: Session)
    requires Inv(safe, st)
    ensures Ebbs(safe, target, st, ReapDeadSession(st, s, seen))
  {
    hide Inv, Ebbs;
    if ReapDeadSession(st, s, seen) == st {
      EbbSelf(safe, target, st);
    } else {
      OneSessionEbbs(safe, target, st, s, seen.(state := SessionClosed));
    }
  }

  // ----- closing a Desktop -----

  /** After its cohorts failed, only unpinned owners are left on the Desktop. */
  lemma NoPinnedOwner(safe: set<string>, st: Pool, s: nat, now: int)
    requires Inv(safe, st)
    ensures forall id :: id in FailCohortsOn(st, s, now).leases && Holder(FailCohortsOn(st, s, now).leases[id], s)
              ==> st.leases[id].req.pin == 0
    ensures Holders(FailCohortsOn(st, s, now).leases, s) <= Holders(st.leases, s)
  {
    hide Sharing, Cohorts, Capacity, WaveOrder;
    var su := FailCohortsOn(st, s, now);
    forall id | id in su.leases && Holder(su.leases[id], s)
      ensures st.leases[id].req.pin == 0 && Holder(st.leases[id], s)
    {
      assert LeaseRow(st.sessions, st.leases[id]);
      if st.leases[id].req.pin != 0 {
        PinTarget(st.sessions, st.leases, st.reservations, id);
      }
    }
  }

  lemma FailCohortsSessions(st: Pool, s: nat, now: int)
    ensures FailCohortsOn(st, s, now).sessions == st.sessions
    ensures FailCohortsOn(st, s, now).leases.Keys == st.leases.Keys
    ensures forall id :: id in st.leases ==> FailCohortsOn(st, s, now).leases[id].req == st.leases[id].req
  {
  }

  /** Between the two states the owners of `s` leave it and the Desktop ends. */
  ghost predicate Ends(st: Pool, su: Pool, s: nat) {
    && s in st.sessions && su.sessions.Keys == st.sessions.Keys
    && su.reservations == st.reservations && su.leases.Keys == st.leases.Keys
    && (forall t :: t in st.sessions && t != s ==> su.sessions[t] == st.sessions[t])
    && su.sessions[s].(state := st.sessions[s].state, fault := st.sessions[s].fault) == st.sessions[s]
    && su.sessions[s].state.Over()
    && (forall id :: id in st.leases && !Holder(st.leases[id], s) ==> su.leases[id] == st.leases[id])
    && (forall id :: id in st.leases && Holder(st.leases[id], s) ==> Leaves(st.leases[id], su.leases[id]))
  }

  predicate Leaves(l: Lease, m: Lease) {
    LeaseMove(l, m, true) && (m.state.Failed? || (m.state.Queued? && l.req.pin == 0))
  }

  lemma EndsSettles(st: Pool, su: Pool, s: nat)
    requires Ends(st, su, s) && ReservationRows(st.sessions, st.leases, st.reservations)
    ensures Settles(st, su)
  {
    assert NoHolder(su.leases, s);
    forall id | id in st.leases
      ensures LeaseMove(st.leases[id], su.leases[id], Gone(su.sessions, st.leases[id]))
    {
      if Holder(st.leases[id], s) {
        assert Leaves(st.leases[id], su.leases[id]) && Gone(su.sessions, st.leases[id]);
      }
    }
    forall r | r in st.reservations
      ensures ReservationMove(st.reservations[r], su.reservations[r],
                              Requeued(st.leases, su.leases, st.reservations[r].lease))
    {
      assert ReservationRow(st.sessions, st.leases, r, st.reservations[r]);
      var lease := st.reservations[r].lease;
      if lease.Some? && Holder(st.leases[lease.value], s) {
        assert Leaves(st.leases[lease.value], su.leases[lease.value]);
      }
    }
  }

  lemma EndsFirm(st: Pool, su: Pool, s: nat)
    requires Ends(st, su, s)
    ensures Firm(st, su) && Quiet(NOTHING, st, su) && EndsEmpty({s}, st, su)
  {
    forall id | id in st.leases
      ensures FirmLease(su.sessions, st.leases[id], su.leases[id])
      ensures su.leases[id].state.Attaching? ==> st.leases[id].state.Attaching?
      ensures su.leases[id].state.Released? ==> st.leases[id].state.Released?
    {
      assert Holder(st.leases[id], s) ==> Leaves(st.leases[id], su.leases[id]);
    }
  }

  lemma EndSession(safe: set<string>, target: int, st: Pool, su: Pool, s: nat)
    requires Inv(safe, st) && Ends(st, su, s)
    ensures Kept(safe, target, NOTHING.(closes := {s}), st, su)
  {
    assert ReservationRows(st.sessions, st.leases, st.reservations) by {
      hide LeaseRows, Sharing, Pins, Cohorts, Capacity, WaveOrder, SessionRows, ReservationRow;
    }
    hide Inv, Calm, Shrinks, Ends, ReservationRows, Settles, FirmExcept, Quiet, EndsEmpty, Firm, Arms, Barred;
    EndsSettles(st, su, s);
    EndsFirm(st, su, s);
    EndsKeys(st, su, s);
    var may := NOTHING.(closes := {s});
    FirmWeakens(may, st, su);
    FirmArms(st, su);
    if Barred(st) {
      FirmBarred(st, su);
    }
    SettleKept(safe, target, may, st, su);
  }

  lemma FirmWeakens(may: May, st: Pool, su: Pool)
    requires Firm(st, su) && Quiet(NOTHING, st, su)
    ensures FirmExcept(may, st, su) && Quiet(may, st, su)
  {
  }

  lemma EndsKeys(st: Pool, su: Pool, s: nat)
    requires Ends(st, su, s)
    ensures su.leases.Keys == st.leases.Keys && su.sessions.Keys == st.sessions.Keys
  {
  }

  lemma VacatedLeases(st: Pool, cfg: Config, s: nat, requeue: bool, now: int, id: nat)
    requires id in st.leases && (Holder(st.leases[id], s) ==> st.leases[id].req.pin == 0)
    ensures
      var su := Vacated(st, cfg, s, requeue, now);
      && id in su.leases
      && (if Holder(st.leases[id], s) then Leaves(st.leases[id], su.leases[id]) else su.leases[id] == st.leases[id])
  {
  }

  lemma VacatedRest(st: Pool, cfg: Config, s: nat, requeue: bool, now: int)
    ensures
      var su := Vacated(st, cfg, s, requeue, now);
      su.sessions == st.sessions && su.reservations == st.reservations && su.leases.Keys == st.leases.Keys
  {
  }

  lemma ClosedEnds(st: Pool, cfg: Config, s: nat, success: bool, requeue: bool, fault: Fault, now: int)
    requires s in st.sessions
    requires forall id :: id in st.leases && Holder(st.leases[id], s) ==> st.leases[id].req.pin == 0
    ensures s in Vacated(st, cfg, s, requeue, now).sessions
    ensures Ends(st, EndDesktop(Vacated(st, cfg, s, requeue, now), s, success, fault), s)
  {
    hide Vacated, Leaves;
    VacatedRest(st, cfg, s, requeue, now);
    forall id | id in st.leases
      ensures
        var su := Vacated(st, cfg, s, requeue, now);
        if Holder(st.leases[id], s) then Leaves(st.leases[id], su.leases[id]) else su.leases[id] == st.leases[id]
    {
      VacatedLeases(st, cfg, s, requeue, now, id);
    }
  }

  /** The close ends the Desktop. */
  predicate Closes(st: Pool, s: nat, token: string, success: bool) {
    HostAuthorized(st, s, token) && (success ==> NoHolder(st.leases, s))
  }

  lemma TaintedEbbs(safe: set<string>, target: int, st: Pool, s: nat, success: bool)
    requires Inv(safe, st) && s in st.sessions
    ensures Ebbs(safe, target, st, Tainted(st, s, success))
  {
    hide Inv, Ebbs;
    ElsewhereEbbs(safe, target, st, Tainted(st, s, success));
  }

  lemma TaintedRows(st: Pool, s: nat, success: bool)
    requires s in st.sessions
    ensures Tainted(st, s, success).sessions == st.sessions && Tainted(st, s, success).leases == st.leases
  {
  }

  lemma CloseSessionKept(safe: set<string>, target: int, st: Pool, cfg: Config, s: nat, token: string,
                         success: bool, requeue: bool, fault: Fault, now: int)
    requires Inv(safe, st)
    ensures Kept(safe, target, NOTHING.(closes := if Closes(st, s, token, success) then {s} else {}), st,
                 CloseSession(st, cfg, s, token, success, requeue, fault, now))
  {
    hide Inv, Kept, Ebbs, FailCohortsOn, Tainted, Vacated, EndDesktop, Ends, NoHolder;
    if !Closes(st, s, token, success) {
      EbbSelf(safe, target, st);
      EbbKept(safe, target, st, st);
    } else {
      var failed := FailCohortsOn(st, s, now);
      NoPinnedOwner(safe, st, s, now);
      FailCohortsOnEbbs(safe, target, st, s, now);
      FailCohortsSessions(st, s, now);
      EbbsInv(safe, target, st, failed);
      var tainted := Tainted(failed, s, success);
      TaintedEbbs(safe, target, failed, s, success);
      TaintedRows(failed, s, success);
      EbbChain(safe, target, st, failed, tainted);
      EbbsInv(safe, target, st, tainted);
      ClosedEnds(tainted, cfg, s, success, !success && requeue, fault, now);
      var su := EndDesktop(Vacated(tainted, cfg, s, !success && requeue, now), s, success, fault);
      EndSession(safe, target, tainted, su, s);
      EbbKept(safe, target, st, tainted);
      KeptTransitive(safe, target, NOTHING, NOTHING.(closes := {s}), st, tainted, su);
      assert Both(NOTHING, NOTHING.(closes := {s})) == NOTHING.(closes := {s});
    }
  }

  lemma FailCohortsOnEbbs(safe: set<string>, target: int, st: Pool, s: nat, now: int)
    requires Inv(safe, st)
    ensures Ebbs(safe, target, st, FailCohortsOn(st, s, now))
  {
    hide Inv, Ebbs, FailCohorts;
    var keys := set r | r in st.reservations && st.reservations[r].session == s
                       && (st.reservations[r].state.Live()
                           || (st.reservations[r].lease.Some? && st.reservations[r].lease.value in st.leases
                               && st.leases[st.reservations[r].lease.value].state.Live()))
                     :: st.reservations[r].key;
    FailCohortsEbbs(safe, target, st, keys, false, now);
  }

  // ----- placement passes -----

  lemma PlaceBatchKept(safe: set<string>, st: Pool, cfg: Config, now: int)
    requires Inv(safe, st)
    ensures Kept(safe, cfg.target, NOTHING, st, PlaceBatch(st, cfg, now))
  {
    hide Inv, Calm, Barred, Arms, Shrinks, PlaceEach, Batch;
    if !cfg.operational {
      EbbSelf(safe, cfg.target, st);
    } else {
      var batch := Batch(Eligible(st, cfg, now), st.cursor);
      var su := st.(cursor := NextCursor(batch));
      ElsewhereEbbs(safe, cfg.target, st, su);
      PlaceEachKept(safe, su, cfg, batch, now);
      KeptChain(safe, cfg.target, st, su, PlaceEach(su, cfg, batch, now));
    }
  }

  lemma PlaceNamedKept(safe: set<string>, st: Pool, cfg: Config, id: nat, now: int)
    requires Inv(safe, st)
    ensures Kept(safe, cfg.target, NOTHING, st, PlaceNamed(st, cfg, id, now))
  {
    hide Inv, Calm, Barred, Arms, Shrinks, PlaceEach;
    EbbSelf(safe, cfg.target, st);
    PlaceEachKept(safe, st, cfg, [id], now);
  }

  lemma RefreshThenPlace(safe: set<string>, st: Pool, cfg: Config, now: int)
    requires Inv(safe, st)
    ensures Kept(safe, cfg.target, NOTHING, st, PlaceBatch(RefreshReservations(st, now), cfg, now))
  {
    hide Inv, Calm, Barred, Arms, Shrinks, PlaceBatch, RefreshReservations;
    var su := RefreshReservations(st, now);
    RefreshReservationsEbbs(safe, cfg.target, st, now);
    PlaceBatchKept(safe, su, cfg, now);
    KeptChain(safe, cfg.target, st, su, PlaceBatch(su, cfg, now));
  }

  // ----- the reuse barrier -----

  /** Disarming one barrier. */
  lemma ClearedBarred(st: Pool, s: nat, now: int)
    requires s in st.sessions && BarrierMayClear(st, s, now) && Barred(st)
    ensures Barred(st.(sessions := st.sessions[s := st.sessions[s].(blockedAt := None, heartbeat := Some(now))]))
  {
    var su := st.(sessions := st.sessions[s := st.sessions[s].(blockedAt := None, heartbeat := Some(now))]);
    forall id | id in su.leases
      ensures BehindBarrier(su.sessions, su.leases[id])
    {
      assert BehindBarrier(st.sessions, st.leases[id]);
    }
  }

  lemma ClearSettles(safe: set<string>, target: int, st: Pool, s: nat, now: int)
    requires Inv(safe, st) && s in st.sessions && BarrierMayClear(st, s, now)
    ensures
      var su := st.(sessions := st.sessions[s := st.sessions[s].(blockedAt := None, heartbeat := Some(now))]);
      Kept(safe, target, NOTHING.(clears := {s}), st, su)
  {
    hide Inv, Calm, Shrinks, Settles, FirmExcept, Quiet, EndsEmpty, Barred, BarrierMayClear;
    var y := st.sessions[s].(blockedAt := None, heartbeat := Some(now));
    var su := st.(sessions := st.sessions[s := y]);
    var may := NOTHING.(clears := {s});
    OneSessionSettles(may, st, s, y);
    hide SessionMove, RestSession, HeldSession;
    if Barred(st) {
      ClearedBarred(st, s, now);
    }
    assert Arms(st, su);
    SettleKept(safe, target, may, st, su);
  }

  /** What a heartbeat may do. */
  function HeartbeatMay(st: Pool, cfg: Config, s: nat, token: string, alive: bool, now: int): May {
    if !HostAuthorized(st, s, token) || !alive then NOTHING
    else NOTHING.(clears := if BarrierMayClear(st, s, now) then {s} else {},
                  wakes := if Recoverable(st, s, cfg.operational) then {s} else {})
  }

  /** The only host heartbeat that changes an armed barrier comes strictly later than
      the moment it was armed, from a Desktop with nothing left to close; the only one
      that wakes a Desktop finds it recoverable. */
  lemma HeartbeatSessionKept(safe: set<string>, st: Pool, cfg: Config, s: nat, token: string, alive: bool, now: int)
    requires Inv(safe, st)
    ensures Kept(safe, cfg.target, HeartbeatMay(st, cfg, s, token, alive, now), st,
                 HeartbeatSession(st, cfg, s, token, alive, now))
  {
    hide Inv, Kept, Ebbs, BarrierMayClear, Recoverable, PlaceBatch, RefreshReservations;
    if !HostAuthorized(st, s, token) || !alive || st.sessions[s].state.Starting? || st.sessions[s].state.Over() {
      EbbSelf(safe, cfg.target, st);
      EbbKept(safe, cfg.target, st, st);
      if HostAuthorized(st, s, token) && alive {
        NeitherClearsNorWakes(st, s, cfg.operational, now);
      }
    } else if BarrierMayClear(st, s, now) {
      var su := st.(sessions := st.sessions[s := st.sessions[s].(blockedAt := None, heartbeat := Some(now))]);
      ClearSettles(safe, cfg.target, st, s, now);
      NotRecoverable(st, s, cfg.operational, now);
      if cfg.operational {
        KeptInv(safe, cfg.target, NOTHING.(clears := {s}), st, su);
        RefreshThenPlace(safe, su, cfg, now);
        KeptThen(safe, cfg.target, NOTHING.(clears := {s}), st, su, PlaceBatch(RefreshReservations(su, now), cfg, now));
      }
    } else {
      PlainHeartbeat(safe, st, cfg, s, token, alive, now);
    }
  }

  lemma KeptInv(safe: set<string>, target: int, may: May, st: Pool, su: Pool)
    requires Kept(safe, target, may, st, su)
    ensures Inv(safe, su)
  {
  }

  lemma NeitherClearsNorWakes(st: Pool, s: nat, operational: bool, now: int)
    requires s in st.sessions && (st.sessions[s].state.Starting? || st.sessions[s].state.Over())
    ensures !BarrierMayClear(st, s, now) && !Recoverable(st, s, operational)
  {
  }

  lemma NotRecoverable(st: Pool, s: nat, operational: bool, now: int)
    requires s in st.sessions && BarrierMayClear(st, s, now)
    ensures !Recoverable(st, s, operational)
  {
  }

  /** The one row a heartbeat without barrier clear writes. */
  lemma HeartbeatRow(st: Pool, cfg: Config, s: nat, token: string, now: int)
    requires HostAuthorized(st, s, token) && !BarrierMayClear(st, s, now) && Booted(st.sessions[s])
    requires !st.sessions[s].state.Starting? && !st.sessions[s].state.Over()
    ensures
      var su := HeartbeatSession(st, cfg, s, token, true, now);
      && su.leases == st.leases && su.reservations == st.reservations && s in su.sessions
      && su.sessions == st.sessions[s := su.sessions[s]]
      && var x, y := st.sessions[s], su.sessions[s];
         && SessionMove(x, y, NoHolder(st.leases, s)) && FirmSession(x, y) && HeldSession(x, y) && !y.state.Over()
         && (Recoverable(st, s, cfg.operational) || RestSession(x, y))
  {
    hide BarrierMayClear, NoHolder;
  }

  lemma PlainHeartbeat(safe: set<string>, st: Pool, cfg: Config, s: nat, token: string, alive: bool, now: int)
    requires Inv(safe, st) && HostAuthorized(st, s, token) && !BarrierMayClear(st, s, now)
    requires alive && !st.sessions[s].state.Starting? && !st.sessions[s].state.Over()
    ensures Kept(safe, cfg.target, HeartbeatMay(st, cfg, s, token, alive, now), st,
                 HeartbeatSession(st, cfg, s, token, alive, now))
  {
    BootedRow(safe, st, s);
    hide Inv, Kept, Ebbs, BarrierMayClear, Recoverable, SessionMove, FirmSession, RestSession, HeldSession, Booted;
    HeartbeatRow(st, cfg, s, token, now);
    hide HeartbeatSession;
    var su := HeartbeatSession(st, cfg, s, token, alive, now);
    var may := HeartbeatMay(st, cfg, s, token, alive, now);
    var mid := st.(sessions := st.sessions[s := su.sessions[s]]);
    OneSessionKept(safe, cfg.target, may, st, s, su.sessions[s]);
    KeptInv(safe, cfg.target, may, st, mid);
    ElsewhereEbbs(safe, cfg.target, mid, su);
    EbbKept(safe, cfg.target, mid, su);
    KeptThen(safe, cfg.target, may, st, mid, su);
  }

  function AckMay(s: nat, id: nat, success: bool): May {
    NOTHING.(clears := {s}, acks := if success then {id} else {})
  }

  /** A host's acknowledgement re-arms the barrier at its own time. */
  lemma AcknowledgedKept(safe: set<string>, target: int, st: Pool, s: nat, id: nat, success: bool, now: int)
    requires Inv(safe, st) && s in st.sessions && id in st.leases
    requires st.leases[id].state.Releasing? && st.sessions[s].started.Some?
    ensures Kept(safe, target, AckMay(s, id, success), st, Acknowledged(st, s, id, success, now))
  {
    hide Inv, Calm, Shrinks, Barred;
    var su := Acknowledged(st, s, id, success, now);
    AcknowledgedLeases(st, s, id, success, now);
    AcknowledgedSessions(st, s, id, success, now);
    AcknowledgedQuiet(st, s, id, success, now);
    hide LeasesSettle, SessionsSettle, ReservationsSettle, Quiet, FirmExcept, EndsEmpty, Acknowledged, Arms;
    assert Settles(st, su);
    if Barred(st) {
      AcknowledgedBarred(st, s, id, success, now);
    }
    SettleKept(safe, target, AckMay(s, id, success), st, su);
  }

  lemma AcknowledgedLeases(st: Pool, s: nat, id: nat, success: bool, now: int)
    requires s in st.sessions && id in st.leases && st.leases[id].state.Releasing?
    ensures var su := Acknowledged(st, s, id, success, now); LeasesSettle(st.leases, su.leases, su.sessions)
  {
    hide AfterAck;
  }

  lemma AckRow(x: Session, success: bool, now: int, empty: bool)
    requires x.started.Some?
    ensures
      var y := AfterAck(x, success, now);
      SessionMove(x, y, empty) && RestSession(x, y) && HeldSession(x, y) && (y.state.Over() ==> x.state.Over())
  {
  }

  lemma AcknowledgedSessions(st: Pool, s: nat, id: nat, success: bool, now: int)
    requires s in st.sessions && st.sessions[s].started.Some? && id in st.leases
    ensures
      var su := Acknowledged(st, s, id, success, now);
      && SessionsSettle(st.sessions, su.sessions, su.leases)
      && FirmExcept(AckMay(s, id, success), st, su) && EndsEmpty({}, st, su)
  {
    hide NoHolder, AfterAck, SessionMove, FirmSession, RestSession, HeldSession;
    var su := Acknowledged(st, s, id, success, now);
    forall t | t in st.sessions
      ensures SessionMove(st.sessions[t], su.sessions[t], NoHolder(su.leases, t))
      ensures t != s ==> FirmSession(st.sessions[t], su.sessions[t])
      ensures RestSession(st.sessions[t], su.sessions[t]) && HeldSession(st.sessions[t], su.sessions[t])
      ensures su.sessions[t].state.Over() ==> st.sessions[t].state.Over()
    {
      if t == s {
        AckRow(st.sessions[s], success, now, NoHolder(su.leases, s));
      } else {
        SameRow(st.sessions[t], NoHolder(su.leases, t));
      }
    }
  }

  lemma AcknowledgedQuiet(st: Pool, s: nat, id: nat, success: bool, now: int)
    requires s in st.sessions && id in st.leases
    ensures
      var su := Acknowledged(st, s, id, success, now);
      && Quiet(AckMay(s, id, success), st, su) && Arms(st, su)
      && ReservationsSettle(st.reservations, su.reservations, st.leases, su.leases)
  {
    hide AfterAck;
  }

  lemma AcknowledgedBarred(st: Pool, s: nat, id: nat, success: bool, now: int)
    requires s in st.sessions && id in st.leases && Barred(st)
    ensures Barred(Acknowledged(st, s, id, success, now))
  {
    var su := Acknowledged(st, s, id, success, now);
    forall i | i in su.leases
      ensures BehindBarrier(su.sessions, su.leases[i])
    {
      assert BehindBarrier(st.sessions, st.leases[i]);
    }
  }

  function ReleaseMay(st: Pool, s: nat, token: string, id: nat, success: bool): May {
    if MayAcknowledge(st, s, token, id) then AckMay(s, id, success) else NOTHING
  }

  lemma CompleteReleaseKept(safe: set<string>, st: Pool, cfg: Config, s: nat, token: string, id: nat,
                            success: bool, now: int)
    requires Inv(safe, st)
    ensures Kept(safe, cfg.target, ReleaseMay(st, s, token, id, success), st,
                 CompleteRelease(st, cfg, s, token, id, success, now))
  {
    hide Inv, Kept, Ebbs, Acknowledged, RefreshSessions, RefreshReservations, PlaceBatch;
    if !MayAcknowledge(st, s, token, id) {
      EbbSelf(safe, cfg.target, st);
      EbbKept(safe, cfg.target, st, st);
    } else {
      var may := AckMay(s, id, success);
      var s1 := Acknowledged(st, s, id, success, now);
      AckStarted(safe, st, s, id);
      AcknowledgedKept(safe, cfg.target, st, s, id, success, now);
      KeptInv(safe, cfg.target, may, st, s1);
      AckRegistered(safe, st, s, id, success, now);
      AfterAckKept(safe, s1, cfg, s, now);
      KeptThen(safe, cfg.target, may, st, s1, CompleteRelease(st, cfg, s, token, id, success, now));
    }
  }

  lemma AckStarted(safe: set<string>, st: Pool, s: nat, id: nat)
    requires Inv(safe, st) && s in st.sessions && id in st.leases && Holder(st.leases[id], s)
    ensures st.sessions[s].started.Some?
  {
    assert LeaseRow(st.sessions, st.leases[id]);
  }

  lemma AckRegistered(safe: set<string>, st: Pool, s: nat, id: nat, success: bool, now: int)
    requires Inv(safe, st) && s in st.sessions && id in st.leases
    requires st.leases[id].session == Some(s)
    ensures Registered(Acknowledged(st, s, id, success, now), {s})
  {
    LeasedRegistered(safe, st, id);
  }

  /** What follows the confirmation in its transaction. */
  lemma AfterAckKept(safe: set<string>, s1: Pool, cfg: Config, s: nat, now: int)
    requires Inv(safe, s1) && Registered(s1, {s})
    ensures
      var su := RefreshReservations(RefreshSessions(s1, {s}), now);
      Kept(safe, cfg.target, NOTHING, s1,
           if cfg.operational then PlaceBatch(RefreshReservations(su, now), cfg, now) else su)
  {
    hide Inv, Kept, Ebbs, RefreshSessions, RefreshReservations, PlaceBatch, Registered;
    var s2 := RefreshSessions(s1, {s});
    RefreshSessionsEbbs(safe, cfg.target, s1, {s});
    EbbsInv(safe, cfg.target, s1, s2);
    var s3 := RefreshReservations(s2, now);
    RefreshReservationsEbbs(safe, cfg.target, s2, now);
    EbbChain(safe, cfg.target, s1, s2, s3);
    EbbsInv(safe, cfg.target, s1, s3);
    EbbKept(safe, cfg.target, s1, s3);
    if cfg.operational {
      RefreshThenPlace(safe, s3, cfg, now);
      KeptChain(safe, cfg.target, s1, s3, PlaceBatch(RefreshReservations(s3, now), cfg, now));
    }
  }
}
