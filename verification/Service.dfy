/** The pool service: its tables are fields, an UPDATE statement is an assignment, and
    every public method is one transaction of the state machine. */
module PoolService {
  import opened PoolRows
  import opened PoolInvariant
  import opened PoolCalm
  import opened PoolRefresh
  import opened PoolCohortLoops
  import opened PoolPlacement
  import opened PoolPlacementProofs
  import opened PoolSolve
  import opened PoolEntry
  import opened PoolCursor
  import opened PoolClient
  import opened PoolHost
  import opened PoolReconcile
  import opened PoolAdmissionProofs
  import opened PoolClientProofs
  import opened PoolGrant
  import opened PoolSteps
  import opened PoolStepProofs
  import opened PoolSafety

  lemma CountOwners(ls: Leases, s: nat)
    ensures |Holders(ls, s)| == 0 <==> NoHolder(ls, s)
  {
    if |Holders(ls, s)| == 0 {
      forall id | id in ls
        ensures !Holder(ls[id], s)
      {
        assert id !in Holders(ls, s);
      }
    } else {
      var id :| id in Holders(ls, s);
    }
  }

  lemma RefreshSplit(st: Pool, s: nat, rest: set<nat>)
    ensures RefreshSessions(RefreshSessions(st, {s}), rest) == RefreshSessions(st, {s} + rest)
  {
    var sv, sw := RefreshSessions(RefreshSessions(st, {s}), rest), RefreshSessions(st, {s} + rest);
    forall t | t in st.sessions
      ensures sv.sessions[t] == sw.sessions[t]
    {
    }
    assert sv.sessions == sw.sessions;
  }

  lemma RefreshNone(st: Pool)
    ensures RefreshSessions(st, {}) == st
  {
    assert RefreshSessions(st, {}).sessions == st.sessions;
  }

  /** The placement order has one first element. */
  lemma OneFirst(ls: Leases, fits: set<nat>, best: nat)
    requires best in fits && forall t :: t in fits ==> Before(ls, best, t)
    ensures best == First(ls, fits)
  {
    assert Before(ls, best, First(ls, fits)) && Before(ls, First(ls, fits), best);
  }

  lemma FitsHasRoom(st: Pool, cfg: Config, id: nat, s: nat, now: int)
    requires id in st.leases && s in FittingSessions(st, cfg, id, now)
    ensures s in st.sessions && |Holders(st.leases, s)| < st.sessions[s].slots
  {
  }

  /** A step of the state machine keeps the invariant. */
  lemma Stepped(safe: set<string>, st: Pool, e: Event)
    requires Inv(safe, st) && Fair(st, e)
    ensures Inv(safe, Next(safe, st, e))
  {
    hide Inv, Next, Fair, Licence, Progress;
    StepProgress(safe, st, e);
    ProgressInv(safe, e.cfg.target, Licence(st, e), st, Next(safe, st, e));
  }

  /** Failing the cohorts of a Desktop writes no session row, and vacating it only leases. */
  lemma SameSessions(st: Pool, s: nat, now: int)
    ensures FailCohortsOn(st, s, now).sessions == st.sessions
  {
  }

  lemma VacatedLeases(st: Pool, cfg: Config, s: nat, requeue: bool, now: int)
    ensures Vacated(st, cfg, s, requeue, now) == st.(leases := Vacated(st, cfg, s, requeue, now).leases)
  {
  }

  class AedtPoolService {
    const safe: set<string>
    var sessions: Sessions
    var leases: Leases
    var reservations: Reservations
    var tasks: Tasks
    var allocations: Allocations
    var cursor: nat

    /** The database as one value. */
    function Db(): Pool reads this {
      Pool(sessions, leases, reservations, tasks, allocations, cursor)
    }

    ghost predicate Valid() reads this {
      Inv(safe, Db())
    }

    constructor (safe: set<string>)
      ensures Valid() && Db() == EMPTY_POOL && this.safe == safe
    {
      this.safe := safe;
      sessions, leases, reservations, tasks, allocations, cursor := map[], map[], map[], map[], map[], 0;
      new;
      EmptyInv(safe);
    }

    // ----- maintenance inside transactions -----

    method RefreshSessionState(s: nat)
      modifies this
      ensures Db() == RefreshSessions(old(Db()), {s})
    {
      ghost var after := RefreshSessions(Db(), {s});
      if s !in sessions || sessions[s].state.Draining? || sessions[s].state.Unhealthy? || sessions[s].state.Over() {
        assert after.sessions == sessions;
        return;
      }
      var live := |Holders(leases, s)|;
      CountOwners(leases, s);
      var x := sessions[s];
      sessions := sessions[s := x.(
        state := if live > 0 then Busy else if x.drainAt.Some? then Draining else Ready,
        isSealed := x.isSealed && live > 0)];
      assert after.sessions == sessions;
    }

    method RefreshSessionStates(which: set<nat>)
      modifies this
      ensures Db() == RefreshSessions(old(Db()), which)
    {
      var left := which;
      while left != {}
        invariant RefreshSessions(Db(), left) == RefreshSessions(old(Db()), which)
        decreases left
      {
        var s := Least(left);
        ghost var before := Db();
        RefreshSessionState(s);
        RefreshSplit(before, s, left - {s});
        assert {s} + (left - {s}) == left;
        left := left - {s};
      }
      RefreshNone(Db());
    }

    /** One cohort fails; with `settle`, its project owners release in two phases. */
    method FailCohort(key: CohortKey, settle: bool, now: int)
      modifies this
      ensures Db() == FailCohorts(old(Db()), {key}, settle, now)
    {
      var st := Db();
      var members := CohortLeases(st, {key});
      if settle {
        var owners := set id | id in members && OwnsProject(leases[id]);
        sessions := BlockSessions(Db(), SessionsOf(st, owners), now).sessions;
        leases := ReleaseLeases(Db(), owners, now).leases;
        leases := FailLeases(Db(), members - owners).leases;
      } else {
        leases := FailLeases(Db(), members).leases;
      }
      reservations := FinishReservations(Db(), CohortReservations(st, {key}), ResFailed).reservations;
    }

    method FailEachCohort(keys: set<CohortKey>, settle: bool, now: int)
      modifies this
      ensures Db() == FailCohorts(old(Db()), keys, settle, now)
    {
      var left := keys;
      while left != {}
        invariant FailCohorts(Db(), left, settle, now) == FailCohorts(old(Db()), keys, settle, now)
        decreases left
      {
        var key :| key in left;
        ghost var before := Db();
        FailCohort(key, settle, now);
        FailSplit(before, key, left - {key}, settle, now);
        assert {key} + (left - {key}) == left;
        left := left - {key};
      }
      FailNone(Db(), settle, now);
    }

    method ExpireCohort(key: CohortKey, now: int)
      modifies this
      ensures Db() == ExpireCohorts(old(Db()), {key}, now)
    {
      var st := Db();
      var members := CohortLeases(st, {key});
      var unpermitted := set id | id in members && leases[id].permit.None?;
      var closing := set id | id in unpermitted && OwnsProject(leases[id]);
      var blocking := set id | id in members && (id in closing || leases[id].state.Releasing?);
      sessions := BlockSessions(Db(), SessionsOf(st, blocking), now).sessions;
      leases := ReleaseLeases(Db(), closing, now).leases;
      leases := ExpireLeases(Db(), unpermitted).leases;
      var ended := set r | r in CohortReservations(st, {key}) && !HasPermit(st.leases, st.reservations[r].lease);
      reservations := FinishReservations(Db(), ended, ResExpired).reservations;
    }

    method ExpireEachCohort(keys: set<CohortKey>, now: int)
      modifies this
      ensures Db() == ExpireCohorts(old(Db()), keys, now)
    {
      var left := keys;
      while left != {}
        invariant ExpireCohorts(Db(), left, now) == ExpireCohorts(old(Db()), keys, now)
        decreases left
      {
        var key :| key in left;
        ghost var before := Db();
        ExpireCohort(key, now);
        ExpireSplit(before, key, left - {key}, now);
        assert {key} + (left - {key}) == left;
        left := left - {key};
      }
      ExpireNone(Db(), now);
    }

    method RefreshExactSessionReservations(now: int)
      modifies this
      ensures Db() == RefreshReservations(old(Db()), now)
    {
      FailEachCohort(TerminalSiblingKeys(Db()), true, now);
      ExpireEachCohort(ExpiredKeys(Db(), now), now);
      reservations := ReleaseFinished(Db()).reservations;
      var keys := InvalidKeys(Db());
      var affected := set r | r in reservations && reservations[r].key in keys :: reservations[r].session;
      FailEachCohort(keys, false, now);
      RefreshSessionStates(affected);
    }

    // ----- placement -----

    /** The first fitting Desktop: fullest first, then oldest. */
    method SelectSession(cfg: Config, id: nat, now: int) returns (best: Option<nat>)
      requires id in leases
      ensures
        var fits := FittingSessions(Db(), cfg, id, now);
        if fits == {} then best.None? else best == Some(First(leases, fits))
    {
      var st := Db();
      var order := InOrder(sessions.Keys);
      best := None;
      ghost var fits := FittingSessions(st, cfg, id, now);
      for i := 0 to |order|
        invariant best.None? ==> forall k :: 0 <= k < i ==> order[k] !in fits
        invariant best.Some? ==> best.value in fits
        invariant best.Some? ==> forall k :: 0 <= k < i && order[k] in fits ==> Before(leases, best.value, order[k])
      {
        var s := order[i];
        assert s in sessions;
        if Selectable(st, cfg, id, s, now) && PinClaimed(st, id) && LeaseFits(st, id, s) {
          if best.None? || !Before(leases, best.value, s) {
            best := Some(s);
          }
        }
      }
      forall s | s in fits
        ensures exists k :: 0 <= k < |order| && order[k] == s
      {
        assert s in order;
      }
      if fits != {} && best.Some? {
        OneFirst(leases, fits, best.value);
      }
    }

    /** The least free index. Placement needs it below the Desktop's slots. */
    method FreeSlot(s: nat) returns (index: nat)
      requires s in sessions && |Holders(leases, s)| < sessions[s].slots
      ensures index == FreeIndex(OccupiedSlots(leases, s), 0) && index < sessions[s].slots
    {
      var occupied := OccupiedSlots(leases, s);
      FreeSlotInRange(leases, s, sessions[s].slots);
      index := 0;
      while index in occupied
        invariant index <= FreeIndex(occupied, 0)
        decreases FreeIndex(occupied, 0) - index
      {
        index := index + 1;
      }
    }

    /** Put a queued lease on a free slot of the Desktop. */
    method SeatLease(cfg: Config, id: nat, s: nat, now: int)
      requires id in leases && s in sessions && |Holders(leases, s)| < sessions[s].slots
      modifies this
      ensures Db() == Seat(old(Db()), cfg, id, s, now)
    {
      var index := FreeSlot(s);
      var l := leases[id];
      leases := leases[id := l.(session := Some(s), slot := index,
                                state := if l.req.protocol >= 2 then Offered else Leased,
                                offerExpires := now + cfg.offerAck)];
      if l.req.pin != 0 && l.req.pin in reservations {
        reservations := reservations[l.req.pin := reservations[l.req.pin].(state := Consumed)];
      }
      if sessions[s].profile == "" {
        sessions := sessions[s := sessions[s].(profile := l.req.profile)];
      }
    }

    method PlaceLease(cfg: Config, id: nat, now: int)
      modifies this
      ensures Db() == PlaceOne(old(Db()), cfg, id, now)
    {
      if id !in leases || !MayPlace(Db(), cfg, id, now) {
        return;
      }
      var best := SelectSession(cfg, id, now);
      if best.None? {
        return;
      }
      FitsHasRoom(Db(), cfg, id, best.value, now);
      hide FittingSessions, MayPlace, Seat, RefreshSessions, Holders;
      SeatLease(cfg, id, best.value, now);
      RefreshSessionState(best.value);
    }

    method PlaceLeases(cfg: Config, ids: seq<nat>, now: int)
      modifies this
      ensures Db() == PlaceEach(old(Db()), cfg, ids, now)
    {
      assert ids[0..] == ids;
      for i := 0 to |ids|
        invariant PlaceEach(Db(), cfg, ids[i..], now) == PlaceEach(old(Db()), cfg, ids, now)
      {
        assert ids[i..][0] == ids[i] && ids[i..][1..] == ids[i + 1..];
        PlaceLease(cfg, ids[i], now);
      }
    }

    /** One bounded pass from the cursor, or a pass for one named lease. */
    method PlaceQueuedLeases(cfg: Config, named: Option<nat>, now: int)
      modifies this
      ensures Db() == if named.Some? then PlaceNamed(old(Db()), cfg, named.value, now)
                      else PlaceBatch(old(Db()), cfg, now)
    {
      if !cfg.operational {
        return;
      }
      var eligible := Eligible(Db(), cfg, now);
      if named.Some? {
        if named.value in eligible {
          PlaceLeases(cfg, [named.value], now);
        }
      } else {
        var batch := Batch(eligible, cursor);
        cursor := NextCursor(batch);
        PlaceLeases(cfg, batch, now);
      }
    }

    // ----- solve waves -----

    /** The oldest waiting family, grouped in a loop; one lease unless it may overlap. */
    method SelectWave(waiting: set<nat>) returns (chosen: set<nat>)
      requires waiting != {} && waiting <= leases.Keys
      ensures chosen == NextWave(safe, leases, waiting)
    {
      var oldest := Least(waiting);
      var family := leases[oldest].req.family;
      if family !in safe {
        return {oldest};
      }
      chosen := {};
      var left := waiting;
      while left != {}
        invariant left <= waiting
        invariant chosen == set id | id in waiting - left && leases[id].req.family == family
        decreases left
      {
        var id := Least(left);
        if leases[id].req.family == family {
          chosen := chosen + {id};
        }
        left := left - {id};
      }
    }

    method StartNextWave(s: nat)
      requires s in sessions
      modifies this
      ensures Db() == StartWave(safe, old(Db()), s)
    {
      var wave := sessions[s].wave + 1;
      sessions := sessions[s := sessions[s].(isSealed := true, wave := wave)];
      var waiting := Waiting(leases, s);
      if waiting != {} {
        var chosen := SelectWave(waiting);
        leases := map id | id in leases ::
          if id in chosen then leases[id].(permit := Some(wave)) else leases[id];
      }
    }

    method StopSolveBatch(s: nat, now: int)
      requires s in sessions
      modifies this
      ensures Db() == StopBatch(old(Db()), s, now)
    {
      var x := sessions[s];
      sessions := sessions[s := x.(
        state := Draining, fault := OtherFault,
        blockedAt := Coalesce(x.blockedAt, now), drainAt := Coalesce(x.drainAt, now))];
      leases := ReleaseLeases(Db(), Waiting(leases, s), now).leases;
    }

    method GrantSolveBatchIfReady(s: nat, now: int, underfilled: bool)
      modifies this
      ensures Db() == GrantBatch(safe, old(Db()), s, now, underfilled)
    {
      hide RefreshReservations, MaySeal, WaveOver, WaveSucceeded, Waiting, StartWave, StopBatch;
      RefreshExactSessionReservations(now);
      if s !in sessions || !sessions[s].state.Assignable() {
        return;
      }
      if !sessions[s].isSealed {
        if MaySeal(Db(), s, underfilled) {
          StartNextWave(s);
        }
      } else if WaveOver(leases, s, sessions[s].wave) {
        if !WaveSucceeded(leases, s, sessions[s].wave) {
          StopSolveBatch(s, now);
        } else if Waiting(leases, s) != {} {
          StartNextWave(s);
        }
      }
    }

    // ----- transactions of lease clients -----

    method HeartbeatLease(cfg: Config, id: nat, token: string, now: int) returns (ok: bool)
      requires Valid()
      modifies this
      ensures Valid() && Db() == Next(safe, old(Db()), Event(cfg, now, HeartbeatLeaseStep(id, token)))
      ensures ok <==> Authorized(old(Db()), id, token) && old(leases[id].state).Live()
    {
      hide Inv, RefreshReservations, PlaceNamed;
      Stepped(safe, Db(), Event(cfg, now, HeartbeatLeaseStep(id, token)));
      ok := Authorized(Db(), id, token) && leases[id].state.Live();
      if !ok {
        return;
      }
      var l := leases[id];
      leases := leases[id := l.(
        state := if l.req.protocol < 2 && l.state.Leased? then Active else l.state,
        heartbeat := now, expires := now + cfg.leaseTtl,
        offerExpires := if l.req.protocol >= 2 && l.state.Offered? then now + cfg.offerAck else l.offerExpires)];
      if l.state.Queued? && cfg.operational {
        RefreshExactSessionReservations(now);
        PlaceQueuedLeases(cfg, Some(id), now);
      }
    }

    /** Refuse an offer for good: the cohort of its pin fails with it. */
    method RefuseLease(id: nat, now: int)
      requires id in leases
      modifies this
      ensures Db() == RefuseOffer(old(Db()), id, now)
    {
      hide FailCohorts, RefreshSessions;
      var l := leases[id];
      if l.req.pin in reservations {
        FailCohort(reservations[l.req.pin].key, false, now);
      }
      leases := FailLeases(Db(), {id}).leases;
      if l.session.Some? {
        RefreshSessionState(l.session.value);
      }
    }

    /** Take an offer back: the lease waits again, and its reservation is claimed again. */
    method RevokeLease(cfg: Config, id: nat, now: int)
      requires id in leases
      modifies this
      ensures Db() == RevokeOffer(old(Db()), cfg, id, now)
    {
      hide RefreshSessions;
      var l := leases[id];
      leases := leases[id := l.(heartbeat := now, expires := now + cfg.leaseTtl)];
      var st := Db();
      leases := RequeueOffers(st, {id}).leases;
      reservations := RequeueOffers(st, {id}).reservations;
      if l.session.Some? {
        RefreshSessionState(l.session.value);
      }
    }

    method AcceptLease(cfg: Config, id: nat, token: string, now: int) returns (ok: bool)
      requires Valid()
      modifies this
      ensures Valid() && Db() == Next(safe, old(Db()), Event(cfg, now, AcceptLeaseStep(id, token)))
      ensures ok <==> Attaches(old(Db()), cfg, id, token, now)
    {
      hide Inv, TargetGone, Transient, RefuseOffer, RevokeOffer;
      Stepped(safe, Db(), Event(cfg, now, AcceptLeaseStep(id, token)));
      ok := Attaches(Db(), cfg, id, token, now);
      if !Authorized(Db(), id, token) || leases[id].req.protocol < 2 || !leases[id].state.Offered? {
        return;
      }
      if leases[id].req.pin != 0 && TargetGone(Db(), cfg, id, now) {
        RefuseLease(id, now);
      } else if TargetGone(Db(), cfg, id, now) || Transient(Db(), id, now) {
        RevokeLease(cfg, id, now);
      } else {
        leases := leases[id := leases[id].(state := Attaching, heartbeat := now, expires := now + cfg.leaseTtl)];
      }
    }

    method ActivateLease(cfg: Config, id: nat, token: string, seenState: LeaseState, seenSession: nat, now: int)
      requires Valid()
      modifies this
      ensures Valid() && Db() == Next(safe, old(Db()), Event(cfg, now, ActivateLeaseStep(id, token, seenState, seenSession)))
    {
      hide Inv, GrantBatch;
      Stepped(safe, Db(), Event(cfg, now, ActivateLeaseStep(id, token, seenState, seenSession)));
      if !Authorized(Db(), id, token) || leases[id].state != seenState
         || (if leases[id].req.protocol < 2 then !seenState.Leased? else !seenState.Attaching?) {
        return;
      }
      leases := leases[id := leases[id].(state := Active, heartbeat := now, expires := now + cfg.leaseTtl)];
      if seenSession != 0 {
        GrantSolveBatchIfReady(seenSession, now, false);
      }
    }

    method RequestSolvePermit(cfg: Config, id: nat, token: string, underfilled: bool, now: int)
      requires Valid()
      modifies this
      ensures Valid() && Db() == Next(safe, old(Db()), Event(cfg, now, RequestSolvePermitStep(id, token, underfilled)))
    {
      hide Inv, GrantBatch;
      Stepped(safe, Db(), Event(cfg, now, RequestSolvePermitStep(id, token, underfilled)));
      if !Authorized(Db(), id, token) || !leases[id].state.Active? {
        return;
      }
      var l := leases[id];
      leases := leases[id := l.(heartbeat := now, expires := now + cfg.leaseTtl)];
      if l.session.Some? {
        GrantSolveBatchIfReady(l.session.value, now, underfilled);
      }
    }

    method CompleteNativePipeline(cfg: Config, id: nat, token: string, wave: nat, now: int)
      requires Valid()
      modifies this
      ensures Valid() && Db() == Next(safe, old(Db()), Event(cfg, now, CompletePipelineStep(id, token, wave)))
    {
      hide Inv;
      Stepped(safe, Db(), Event(cfg, now, CompletePipelineStep(id, token, wave)));
      if !Authorized(Db(), id, token) || !leases[id].state.Active? || wave == 0
         || leases[id].session.None? || leases[id].permit != Some(wave) {
        return;
      }
      var l := leases[id];
      leases := leases[id := l.(heartbeat := now, expires := now + cfg.leaseTtl)];
      leases := leases[id := leases[id].(marker := Some(Marker(l.session.value, wave)))];
    }

    method CancelLease(cfg: Config, id: nat, token: string, now: int)
      requires Valid()
      modifies this
      ensures Valid() && Db() == Next(safe, old(Db()), Event(cfg, now, CancelLeaseStep(id, token)))
    {
      hide Inv, RefreshSessions;
      Stepped(safe, Db(), Event(cfg, now, CancelLeaseStep(id, token)));
      if !Authorized(Db(), id, token) || leases[id].state.Terminal() {
        return;
      }
      var l := leases[id];
      if (OwnsProject(l) || (l.state.Leased? && l.req.protocol < 2)) && l.session.Some? {
        sessions := BlockSessions(Db(), {l.session.value}, now).sessions;
        leases := leases[id := l.(state := Releasing, releaseAt := Some(now))];
      } else {
        leases := leases[id := l.(state := Cancelled, session := None, slot := 0)];
        if l.session.Some? {
          RefreshSessionState(l.session.value);
        }
      }
    }

    method DrainAllocationFor(a: nat, reason: DrainReason)
      modifies this
      ensures Db() == DrainAllocation(old(Db()), a, reason)
    {
      if a in allocations && allocations[a].Open() {
        allocations := allocations[a := allocations[a].(state := AllocDraining, reason := reason)];
      }
    }

    method QuarantineSession(s: nat, until: int, fault: Fault, now: int)
      modifies this
      ensures Db() == QuarantineSeen(old(Db()), s, until, fault, now)
    {
      if s in sessions && (sessions[s].state.Assignable() || sessions[s].state.Draining?) {
        sessions := sessions[s := sessions[s].(
          state := Draining, quarantine := OtherQuarantine, quarantineUntil := Some(until), fault := fault,
          blockedAt := Coalesce(sessions[s].blockedAt, now), drainAt := Coalesce(sessions[s].drainAt, now))];
      }
    }

    method ReportSolverTimeout(cfg: Config, id: nat, seenSession: nat, seenAllocation: nat, until: int, fault: Fault, now: int)
      requires Valid()
      modifies this
      ensures Valid() && Db() == Next(safe, old(Db()), Event(cfg, now, SolverTimeoutStep(id, seenSession, seenAllocation, until, fault)))
    {
      hide Inv, QuarantineSeen, DrainAllocation;
      Stepped(safe, Db(), Event(cfg, now, SolverTimeoutStep(id, seenSession, seenAllocation, until, fault)));
      if TimesOut(Db(), id) {
        leases := leases[id := leases[id].(state := Releasing, releaseAt := Some(now))];
      }
      QuarantineSession(seenSession, until, fault, now);
      DrainAllocationFor(seenAllocation, PoolReason);
    }

    method ReportTransportSuspect(cfg: Config, s: nat, now: int)
      requires Valid()
      modifies this
      ensures Valid() && Db() == Next(safe, old(Db()), Event(cfg, now, SuspectTransportStep(s)))
    {
      hide Inv;
      Stepped(safe, Db(), Event(cfg, now, SuspectTransportStep(s)));
      if s in sessions && sessions[s].state.Assignable() {
        sessions := sessions[s := sessions[s].(state := Unhealthy, fault := TransportSuspect, drainAt := None)];
      }
    }

    method ReportAedtDeath(cfg: Config, s: nat, fault: Fault, now: int)
      requires Valid()
      modifies this
      ensures Valid() && Db() == Next(safe, old(Db()), Event(cfg, now, ReportDeathStep(s, fault)))
    {
      hide Inv, DrainAllocation, Coalesce;
      Stepped(safe, Db(), Event(cfg, now, ReportDeathStep(s, fault)));
      if s !in sessions {
        return;
      }
      var x := sessions[s];
      if x.state.Assignable() || x.state.Draining? {
        sessions := sessions[s := x.(
          state := Unhealthy, fault := fault, quarantine := OtherQuarantine, drainAt := Coalesce(x.drainAt, now))];
      }
      DrainAllocationFor(x.allocation, PoolReason);
    }

    // ----- admission -----

    /** Free a request key whose holder gave it up. */
    method SupersedeLease(id: nat, archived: string)
      requires id in leases
      modifies this
      ensures Db() == Supersede(old(Db()), id, archived) && reservations == old(reservations)
    {
      var l := leases[id];
      if l.state.Terminal() {
        leases := leases[id := l.(key := archived)];
      } else {
        leases := leases[id := l.(key := archived, state := Expired, session := None, slot := 0)];
        if l.session.Some? {
          RefreshSessionState(l.session.value);
        }
      }
    }

    method InsertLease(l: Lease) returns (id: nat)
      modifies this
      ensures id == NextId(old(leases).Keys) && Db() == AddLease(old(Db()), l)
    {
      id := NextId(leases.Keys);
      leases := leases[id := l];
      if l.req.pin != 0 && l.req.pin in reservations {
        reservations := reservations[l.req.pin := reservations[l.req.pin].(state := Claimed, lease := Some(id))];
      }
    }

    /** Insert the lease, or find the one the same request made before. A refusal may
        leave partial writes; the caller rolls back. */
    method EnterLease(cfg: Config, w: Wish, pin: Option<nat>, now: int) returns (id: Option<nat>)
      requires pin.Some? ==> pin.value in reservations
      modifies this
      ensures
        var r := Enter(old(Db()), cfg, w, pin, now);
        if id.Some? then r == Some((Db(), id.value)) else r.None?
    {
      hide RefreshSessions, AddLease, Replaceable;
      var same := WithKey(leases, w.key);
      if same != {} {
        var holder := Least(same);
        if leases[holder].token == w.token {
          return Some(holder);
        }
        if !Replaceable(Db(), leases[holder], now) {
          return None;
        }
        SupersedeLease(holder, Archived(w.key, holder));
      }
      if pin.Some? && !(reservations[pin.value].state.Reserved? && reservations[pin.value].lease.None?) {
        return None;
      }
      var n := InsertLease(NewLease(Db(), cfg, w, pin, now));
      id := Some(n);
    }

    /** An error rolls the transaction back. */
    method Rollback(st: Pool)
      modifies this
      ensures Db() == st
    {
      sessions, leases, reservations := st.sessions, st.leases, st.reservations;
      tasks, allocations, cursor := st.tasks, st.allocations, st.cursor;
    }

    method RequestLease(cfg: Config, w: Wish, now: int) returns (ok: bool)
      requires Valid()
      modifies this
      ensures Valid() && Db() == Next(safe, old(Db()), Event(cfg, now, RequestLeaseStep(w)))
      ensures !ok ==> Db() == old(Db())
    {
      hide Inv, RefreshReservations, Authorize, Enter, PlaceNamed, PlaceBatch;
      Stepped(safe, Db(), Event(cfg, now, RequestLeaseStep(w)));
      var before := Db();
      ok := false;
      if w.deadline <= now {
        return;
      }
      RefreshExactSessionReservations(now);
      var authority := Authorize(Db(), cfg, w, now);
      if authority.Denied? || (authority.Pinned? && authority.id !in reservations) {
        Rollback(before);
        return;
      }
      var id := EnterLease(cfg, w, if authority.Pinned? then Some(authority.id) else None, now);
      if id.None? {
        Rollback(before);
        return;
      }
      PlaceQueuedLeases(cfg, id, now);
      ok := true;
    }

    method CreateExactSessionReservation(cfg: Config, name: string, s: nat, generation: nat, profile: string, cohort: set<nat>, ttl: int, now: int)
      requires Valid()
      modifies this
      ensures Valid() && Db() == Next(safe, old(Db()), Event(cfg, now, CreateReservationStep(name, s, generation, profile, cohort, ttl)))
    {
      hide Inv, RefreshReservations, SameCohort, CohortAdmissible, AddReservations, InOrder;
      Stepped(safe, Db(), Event(cfg, now, CreateReservationStep(name, s, generation, profile, cohort, ttl)));
      if name == "" || cohort == {} || 0 in cohort || !(60 <= ttl <= 3600) {
        return;
      }
      var before := Db();
      RefreshExactSessionReservations(now);
      var r := Reservation(Operator(name), 0, s, generation, profile, "", None, Reserved, None, now + ttl);
      if exists q :: q in reservations && reservations[q].key == Operator(name) {
        if !SameCohort(reservations, r, cohort) {
          Rollback(before);
        }
      } else if CohortAdmissible(Db(), cfg, r, InOrder(cohort)) {
        InsertReservations(r, InOrder(cohort));
      } else {
        Rollback(before);
      }
    }

    /** One row for each task of the cohort, in ascending order. */
    method InsertReservations(r: Reservation, ids: seq<nat>)
      modifies this
      ensures Db() == AddReservations(old(Db()), r, ids)
    {
      assert ids[0..] == ids;
      for i := 0 to |ids|
        invariant AddReservations(Db(), r, ids[i..]) == AddReservations(old(Db()), r, ids)
      {
        assert ids[i..][0] == ids[i] && ids[i..][1..] == ids[i + 1..];
        reservations := reservations[NextId(reservations.Keys) := r.(task := ids[i])];
      }
    }

    method PreparePooledTaskSession(cfg: Config, intent: Intent, route: set<nat>, chosen: nat, now: int)
      requires Valid() && FreshNonce(reservations, intent.nonce)
      modifies this
      ensures Valid() && Db() == Next(safe, old(Db()), Event(cfg, now, PrepareTaskStep(intent, route, chosen)))
    {
      hide Inv, RefreshReservations, FailCohorts, LatestUsable, AdmittedExcept, AutoCandidate, AutoReservation, Collides, FreshNonce;
      Stepped(safe, Db(), Event(cfg, now, PrepareTaskStep(intent, route, chosen)));
      if intent.task == 0 || intent.family == "" || !(60 <= intent.ttl <= 3600) || !cfg.operational {
        return;
      }
      var before := Db();
      RefreshExactSessionReservations(now);
      if intent.task !in tasks || !tasks[intent.task].status.TaskQueued? {
        return;
      }
      if !tasks[intent.task].pooled {
        Rollback(before);
        return;
      }
      if cfg.target <= 0 || |AdmittedExcept(Db(), intent.task)| >= cfg.target {
        return;
      }
      var newest := Newest(reservations, intent.task);
      if newest.Some? {
        var r := reservations[newest.value];
        if (r.state.Held() && LatestUsable(Db(), cfg, intent, route, r, now)) || r.key.Operator? {
          return;
        }
        if r.state.Held() {
          FailCohort(r.key, false, now);
        }
      }
      if chosen in sessions && AutoCandidate(Db(), cfg, intent, route, chosen, now) {
        var r := AutoReservation(Db(), intent, chosen, now);
        if Collides(reservations, r) {
          Rollback(before);
        } else {
          reservations := reservations[NextId(reservations.Keys) := r];
        }
      }
    }

    // ----- transactions of session hosts -----

    method ClaimStart(cfg: Config, s: nat, allocation: nat, node: string, host: string, now: int)
      requires Valid()
      modifies this
      ensures Valid() && Db() == Next(safe, old(Db()), Event(cfg, now, ClaimStartStep(s, allocation, node, host)))
    {
      hide Inv;
      Stepped(safe, Db(), Event(cfg, now, ClaimStartStep(s, allocation, node, host)));
      if s in sessions && host != "" && sessions[s].state.Starting?
         && sessions[s].allocation == allocation && sessions[s].node == node
         && allocation in allocations && (sessions[s].host == "" || sessions[s].host == host) {
        sessions := sessions[s := sessions[s].(host := host, claimedAt := Coalesce(sessions[s].claimedAt, now))];
      }
    }

    method RegisterSession(cfg: Config, s: nat, host: string, endpoint: string, process: string, profile: string, token: string,
                           enabled: bool, now: int) returns (ok: bool)
      requires Valid()
      modifies this
      ensures Valid() && Db() == Next(safe, old(Db()), Event(cfg, now, RegisterSessionStep(s, host, endpoint, process, profile, token, enabled)))
      ensures ok <==> s in old(sessions) && MayRegister(old(Db()), s, host, profile)
    {
      hide Inv, MayRegister, RegisteredRow;
      Stepped(safe, Db(), Event(cfg, now, RegisterSessionStep(s, host, endpoint, process, profile, token, enabled)));
      ok := s in sessions && MayRegister(Db(), s, host, profile);
      if !ok {
        return;
      }
      var x := sessions[s];
      var late := !x.state.Starting?;
      var foreignDrain := late && x.allocation in allocations && allocations[x.allocation].state.AllocDraining?
                          && !allocations[x.allocation].reason.UnhealthyRecycle?;
      var state := if enabled && !foreignDrain then Ready else Draining;
      sessions := sessions[s := RegisteredRow(x, state, endpoint, process, profile, token, now)];
      if late && state.Ready? {
        allocations := RestoreAllocation(Db(), x.allocation).allocations;
      }
    }

    method FailSessionStart(cfg: Config, s: nat, host: string, now: int)
      requires Valid()
      modifies this
      ensures Valid() && Db() == Next(safe, old(Db()), Event(cfg, now, FailStartStep(s, host)))
    {
      hide Inv;
      Stepped(safe, Db(), Event(cfg, now, FailStartStep(s, host)));
      if s in sessions && sessions[s].state.Starting? && sessions[s].host == host {
        sessions := sessions[s := sessions[s].(state := SessionFailed, fault := OtherFault)];
      }
    }

    method HeartbeatSession(cfg: Config, s: nat, token: string, alive: bool, now: int)
      requires Valid()
      modifies this
      ensures Valid() && Db() == Next(safe, old(Db()), Event(cfg, now, HeartbeatSessionStep(s, token, alive)))
    {
      hide Inv, BarrierMayClear, Recoverable, Recovered, RefreshReservations, PlaceBatch, PlaceNamed;
      Stepped(safe, Db(), Event(cfg, now, HeartbeatSessionStep(s, token, alive)));
      if !HostAuthorized(Db(), s, token) || !alive || sessions[s].state.Starting? || sessions[s].state.Over() {
        return;
      }
      var clears, recovers := BarrierMayClear(Db(), s, now), Recoverable(Db(), s, cfg.operational);
      var x := sessions[s];
      sessions := sessions[s := x.(blockedAt := if clears then None else x.blockedAt, heartbeat := Some(now))];
      if recovers {
        RecoverSession(s, now);
      } else if clears && cfg.operational {
        RefreshExactSessionReservations(now);
        PlaceQueuedLeases(cfg, None, now);
      }
    }

    method RecoverSession(s: nat, now: int)
      requires s in sessions
      modifies this
      ensures Db() == Recovered(old(Db()), s, now)
    {
      var x := sessions[s];
      var live := |Holders(leases, s)|;
      CountOwners(leases, s);
      sessions := sessions[s := x.(state := if live == 0 then Ready else Busy, fault := NoFault, drainAt := None,
                                   heartbeat := Some(now))];
      allocations := RestoreAllocation(Db(), x.allocation).allocations;
    }

    method CompleteRelease(cfg: Config, s: nat, token: string, id: nat, success: bool, now: int) returns (ok: bool)
      requires Valid()
      modifies this
      ensures Valid() && Db() == Next(safe, old(Db()), Event(cfg, now, CompleteReleaseStep(s, token, id, success)))
      ensures ok <==> MayAcknowledge(old(Db()), s, token, id)
    {
      hide Inv, AfterAck, RefreshSessions, RefreshReservations, PlaceBatch, PlaceNamed;
      Stepped(safe, Db(), Event(cfg, now, CompleteReleaseStep(s, token, id, success)));
      ok := MayAcknowledge(Db(), s, token, id);
      if !ok {
        return;
      }
      leases := leases[id := leases[id].(state := if success then Released else Failed)];
      sessions := sessions[s := AfterAck(sessions[s], success, now)];
      RefreshSessionState(s);
      RefreshExactSessionReservations(now);
      if cfg.operational {
        RefreshExactSessionReservations(now);
        PlaceQueuedLeases(cfg, None, now);
      }
    }

    method ReportSessionFault(cfg: Config, s: nat, token: string, confirmed: bool, fault: Fault, now: int)
      requires Valid()
      modifies this
      ensures Valid() && Db() == Next(safe, old(Db()), Event(cfg, now, SessionFaultStep(s, token, confirmed, fault)))
    {
      hide Inv, SupervisedSolve, DrainAllocation, Coalesce;
      Stepped(safe, Db(), Event(cfg, now, SessionFaultStep(s, token, confirmed, fault)));
      if !HostAuthorized(Db(), s, token) {
        return;
      }
      var x := sessions[s];
      if !confirmed {
        if x.state.Assignable() || x.state.Unhealthy? {
          var supervised := SupervisedSolve(Db(), s, now);
          sessions := sessions[s := x.(
            state := Unhealthy, quarantine := NoQuarantine, fault := NativeSuspect, faultAt := Some(now),
            drainAt := if supervised then None else Coalesce(x.drainAt, now),
            heartbeat := if supervised then Some(now) else x.heartbeat)];
        }
      } else {
        if x.state.Assignable() || x.state.Draining? || x.state.Unhealthy? {
          sessions := sessions[s := x.(
            state := Unhealthy, quarantine := ConfirmedDeath, fault := fault, faultAt := Some(now),
            drainAt := Coalesce(x.drainAt, now))];
        }
        DrainAllocationFor(x.allocation, FaultedRecycle);
      }
    }

    /** Every cohort that still needs the Desktop fails. */
    method FailCohortsForTarget(s: nat, now: int)
      modifies this
      ensures Db() == FailCohortsOn(old(Db()), s, now)
    {
      hide FailCohorts;
      var keys := set r | r in reservations && reservations[r].session == s
                         && (reservations[r].state.Live()
                             || (reservations[r].lease.Some? && reservations[r].lease.value in leases
                                 && leases[reservations[r].lease.value].state.Live()))
                       :: reservations[r].key;
      FailEachCohort(keys, false, now);
    }

    method CloseSession(cfg: Config, s: nat, token: string, success: bool, requeue: bool, fault: Fault, now: int) returns (ok: bool)
      requires Valid()
      modifies this
      ensures Valid() && Db() == Next(safe, old(Db()), Event(cfg, now, CloseSessionStep(s, token, success, requeue, fault)))
      ensures ok <==> HostAuthorized(old(Db()), s, token) && (success ==> NoHolder(old(leases), s))
    {
      hide Inv, FailCohortsOn, Vacated, NoHolder;
      Stepped(safe, Db(), Event(cfg, now, CloseSessionStep(s, token, success, requeue, fault)));
      ok := HostAuthorized(Db(), s, token) && (success ==> NoHolder(leases, s));
      if !ok {
        return;
      }
      var before := Db();
      var allocation := sessions[s].allocation;
      FailCohortsForTarget(s, now);
      SameSessions(before, s, now);
      if !success {
        DrainAllocationFor(allocation, FaultedRecycle);
      }
      VacatedLeases(Db(), cfg, s, !success && requeue, now);
      leases := Vacated(Db(), cfg, s, !success && requeue, now).leases;
      sessions := sessions[s := sessions[s].(
        state := if success then SessionClosed else SessionFailed, fault := if success then NoFault else fault)];
    }

    method ReapDeadSession(cfg: Config, s: nat, seen: Session, now: int)
      requires Valid()
      modifies this
      ensures Valid() && Db() == Next(safe, old(Db()), Event(cfg, now, ReapDeadSessionStep(s, seen)))
    {
      hide Inv;
      Stepped(safe, Db(), Event(cfg, now, ReapDeadSessionStep(s, seen)));
      if s in sessions && sessions[s] == seen && (seen.state.Unhealthy? || seen.state.Draining?)
         && (forall id :: id in leases && leases[id].session == Some(s) ==> !leases[id].state.Live()) {
        sessions := sessions[s := seen.(state := SessionClosed)];
      }
    }

    method RequestAllSessionsDrain(cfg: Config, now: int)
      requires Valid()
      modifies this
      ensures Valid() && Db() == Next(safe, old(Db()), Event(cfg, now, RequestDrainStep))
    {
      hide Inv;
      Stepped(safe, Db(), Event(cfg, now, RequestDrainStep));
      sessions := RequestDrain(Db(), None, now).sessions;
    }

    // ----- the reconciler -----

    method RefreshZeroOwnerDrains()
      modifies this
      ensures Db() == RefreshEmptyDrains(old(Db()))
    {
      RefreshSessionStates(set s | s in sessions && sessions[s].state.Busy? && sessions[s].drainAt.Some?
                                   && NoHolder(leases, s));
    }

    method PrepareTick(cfg: Config, execute: bool, orders: Orders, now: int)
      modifies this
      ensures Db() == Prepare(old(Db()), cfg, execute, orders, now)
    {
      hide RefreshEmptyDrains, RefreshReservations, RetireStarts, DrainPressured;
      RefreshZeroOwnerDrains();
      RefreshExactSessionReservations(now);
      RefreshZeroOwnerDrains();
      if execute && cfg.operational {
        RetireBlockedStarts(orders.blockedStarts);
        var before := Db();
        DrainPressuredSessions(orders.pressured, now);
        if Db() != before {
          RefreshExactSessionReservations(now);
          RefreshZeroOwnerDrains();
        }
      }
    }

    method RetireBlockedStarts(which: set<nat>)
      modifies this
      ensures Db() == RetireStarts(old(Db()), which)
    {
      sessions := RetireStarts(Db(), which).sessions;
    }

    method DrainPressuredSessions(which: set<nat>, now: int)
      modifies this
      ensures Db() == DrainPressured(old(Db()), which, now)
    {
      sessions := DrainPressured(Db(), which, now).sessions;
    }

    method RotateOldAllocations(cfg: Config, execute: bool, now: int)
      modifies this
      ensures Db() == Rotate(old(Db()), cfg, execute, now)
    {
      if execute {
        allocations := RotateAllocations(Db(), cfg, now).allocations;
        sessions := RequestDrain(Db(), Some(Rotating(Db())), now).sessions;
      }
    }

    /** Leases of finished tasks end or release. */
    method EndOrphanLeases(now: int)
      modifies this
      ensures Db() == EndOrphans(old(Db()), now)
    {
      hide RefreshSessions, SessionsOf;
      var st := Db();
      var over := set id | id in leases && ClientOver(st, leases[id]);
      var owners := set id | id in over && OwnsProject(leases[id]);
      var others := over - owners;
      sessions := BlockSessions(Db(), SessionsOf(st, owners), now).sessions;
      leases := CloseProjects(Db(), owners, now).leases;
      leases := CancelLeases(Db(), others, Cancelled).leases;
      RefreshSessionStates(SessionsOf(st, others));
    }

    /** Offers nobody acknowledged go back to the queue. */
    method RequeueStaleOffers(now: int)
      modifies this
      ensures Db() == RequeueStale(old(Db()), now)
    {
      hide RefreshSessions, SessionsOf, StaleOffers;
      var st := Db();
      var ids := StaleOffers(st, now);
      leases := RequeueOffers(st, ids).leases;
      reservations := RequeueOffers(st, ids).reservations;
      RefreshSessionStates(SessionsOf(st, ids));
    }

    /** Leases whose heartbeat stopped expire, or release and quarantine their Desktop. */
    method ExpireLapsedLeases(cfg: Config, now: int)
      modifies this
      ensures Db() == ExpireLapsed(old(Db()), cfg, now)
    {
      hide RefreshSessions, SessionsOf, Lapsed;
      var st := Db();
      var lapsed := set id | id in leases && Lapsed(cfg, leases[id], now);
      var waiting := set id | id in lapsed && (leases[id].state.Queued? || leases[id].state.Offered?);
      var closing := lapsed - waiting;
      var solving := set id | id in closing && leases[id].state.Active?;
      sessions := BlockSessions(Db(), SessionsOf(st, closing), now).sessions;
      leases := CloseProjects(Db(), closing, now).leases;
      leases := CancelLeases(Db(), waiting, Expired).leases;
      RefreshSessionStates(SessionsOf(st, waiting));
      sessions := QuarantineSessions(Db(), SessionsOf(st, solving), now).sessions;
    }

    /** Desktops whose host fell silent, and the leases lost with them. */
    method ReapSilentSessions(cfg: Config, now: int)
      modifies this
      ensures Db() == ReapSessions(old(Db()), cfg, now)
    {
      sessions := ExpireSessions(Db(), cfg, now).sessions;
      LoseUnacknowledgedReleases(cfg, now);
      sessions := ExpireStarts(Db(), cfg, now).sessions;
      allocations := RecycleAllocations(Db(), cfg, now).allocations;
      ReapUnreachableSessions(cfg, now);
    }

    method LoseUnacknowledgedReleases(cfg: Config, now: int)
      modifies this
      ensures Db() == LoseReleases(old(Db()), cfg, now)
    {
      hide Silent, ReleaseOld;
      var cutoff := now - cfg.sessionTimeout;
      sessions := CondemnSilent(Db(), cutoff, now).sessions;
      var lost := set id | id in leases && ReleaseOld(leases[id], cutoff)
        && (leases[id].session.None? || leases[id].session.value !in sessions
            || sessions[leases[id].session.value].state.Over()
            || Silent(sessions[leases[id].session.value], cutoff));
      leases := FailLeases(Db(), lost).leases;
    }

    method ReapUnreachableSessions(cfg: Config, now: int)
      modifies this
      ensures Db() == ReapUnreachable(old(Db()), cfg, now)
    {
      hide Unreachable;
      var st := Db();
      var dead := set s | s in sessions && Unreachable(st, cfg, s, now);
      leases := FailLeases(Db(), set id | id in leases && leases[id].state.Holds()
                                          && leases[id].session.Some? && leases[id].session.value in dead).leases;
      sessions := map s | s in sessions ::
        if s in dead then sessions[s].(state := SessionFailed) else sessions[s];
    }

    method RestoreHealthyAllocations(execute: bool, now: int)
      modifies this
      ensures Db() == Restore(old(Db()), execute, now)
    {
      if execute {
        var st := Db();
        allocations := RestoreAllocations(st).allocations;
        sessions := RestoreAllocations(st).sessions;
        sessions := DrainStranded(Db(), now).sessions;
      }
    }

    /** Drain what the plan gives up, open what it asks for. */
    method ApplyOrders(cfg: Config, orders: Orders, now: int)
      modifies this
      ensures Db() == Apply(old(Db()), cfg, orders, now)
    {
      sessions := DrainRebalanced(Db(), orders.rebalance, now).sessions;
      sessions := DrainSurplus(Db(), orders.surplus, now).sessions;
      var rows := seq(|orders.opening|, i requires 0 <= i < |orders.opening| => Opened(orders.opening[i], now));
      InsertSessions(rows);
    }

    method InsertSessions(rows: seq<Session>)
      modifies this
      ensures Db() == AddSessions(old(Db()), rows)
    {
      assert rows[0..] == rows;
      for i := 0 to |rows|
        invariant AddSessions(Db(), rows[i..]) == AddSessions(old(Db()), rows)
      {
        assert rows[i..][0] == rows[i] && rows[i..][1..] == rows[i + 1..];
        sessions := sessions[NextId(sessions.Keys) := rows[i]];
      }
    }

    method Reconcile(cfg: Config, execute: bool, orders: Orders, now: int)
      requires Valid()
      modifies this
      ensures Valid() && Db() == Next(safe, old(Db()), Event(cfg, now, ReconcileStep(execute, orders)))
    {
      hide Inv, Prepare, Rotate, EndOrphans, RequeueStale, ExpireLapsed, ReapSessions, Restore, PlaceBatch, PlaceNamed, Apply;
      Stepped(safe, Db(), Event(cfg, now, ReconcileStep(execute, orders)));
      PrepareTick(cfg, execute, orders, now);
      RotateOldAllocations(cfg, execute, now);
      EndOrphanLeases(now);
      RequeueStaleOffers(now);
      ExpireLapsedLeases(cfg, now);
      ReapSilentSessions(cfg, now);
      RestoreHealthyAllocations(execute, now);
      if execute && cfg.operational {
        PlaceQueuedLeases(cfg, None, now);
        ApplyOrders(cfg, orders, now);
      }
    }
  }
}
