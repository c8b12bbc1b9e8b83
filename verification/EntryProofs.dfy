/** Inserts keep the invariant when their guards hold. */
module PoolEntryProofs {
  import opened PoolRows
  import opened PoolInvariant
  import opened PoolSettle
  import opened PoolCalm
  import opened PoolRefreshProofs
  import opened PoolPlacement
  import opened PoolPlacementProofs
  import opened PoolEntry

  // ----- a new lease -----

  ghost predicate MayEnter(st: Pool, l: Lease) {
    && l.state.Queued? && l.session.None? && l.permit.None? && l.marker.None?
    && (l.req.policy.Exclusive? ==> l.req.exclusive)
    && (l.req.pin != 0 ==>
          && l.req.pin in st.reservations && st.reservations[l.req.pin].state.Reserved?
          && st.reservations[l.req.pin].task == l.req.task
          && st.reservations[l.req.pin].session == l.req.pinSession
          && st.reservations[l.req.pin].generation == l.req.pinGeneration)
  }

  lemma AddLeaseEffect(st: Pool, l: Lease)
    ensures
      var su := AddLease(st, l);
      var id := NextId(st.leases.Keys);
      && su.leases == st.leases[id := l] && id !in st.leases
      && su.sessions == st.sessions
      && su.reservations.Keys == st.reservations.Keys
      && (forall r :: r in st.reservations && r != l.req.pin ==> su.reservations[r] == st.reservations[r])
      && (l.req.pin != 0 && l.req.pin in st.reservations ==>
            su.reservations[l.req.pin] == st.reservations[l.req.pin].(state := Claimed, lease := Some(id)))
      && (l.req.pin == 0 ==> su.reservations == st.reservations)
  {
  }

  lemma AddLeaseRows(st: Pool, l: Lease)
    requires LeaseRows(st.sessions, st.leases) && MayEnter(st, l)
    requires ReservationRows(st.sessions, st.leases, st.reservations)
    ensures LeaseRows(st.sessions, AddLease(st, l).leases)
  {
    AddLeaseEffect(st, l);
    if l.req.pin != 0 {
      assert ReservationRow(st.sessions, st.leases, l.req.pin, st.reservations[l.req.pin]);
    }
  }

  lemma AddLeaseSharing(safe: set<string>, st: Pool, l: Lease)
    requires Sharing(safe, st.leases) && MayEnter(st, l)
    ensures Sharing(safe, AddLease(st, l).leases)
  {
    AddLeaseEffect(st, l);
    var su := AddLease(st, l);
    forall i, j | i in su.leases && j in su.leases && i != j
      ensures Neighbours(safe, su.leases[i], su.leases[j])
    {
      if i in st.leases && j in st.leases {
        assert Neighbours(safe, st.leases[i], st.leases[j]);
      }
    }
  }

  lemma AddLeaseReservationRow(st: Pool, l: Lease, r: nat)
    requires MayEnter(st, l) && r in st.reservations
    requires ReservationRow(st.sessions, st.leases, r, st.reservations[r])
    ensures ReservationRow(st.sessions, AddLease(st, l).leases, r, AddLease(st, l).reservations[r])
  {
    AddLeaseEffect(st, l);
  }

  lemma AddLeasePins(safe: set<string>, st: Pool, l: Lease)
    requires Pins(st.leases, st.reservations) && MayEnter(st, l)
    requires ReservationRows(st.sessions, st.leases, st.reservations)
    ensures Pins(AddLease(st, l).leases, AddLease(st, l).reservations)
  {
    AddLeaseEffect(st, l);
    var su := AddLease(st, l);
    forall id | id in su.leases
      ensures PinnedLease(su.reservations, id, su.leases[id])
    {
      if id in st.leases {
        assert PinnedLease(st.reservations, id, st.leases[id]);
        if l.req.pin != 0 {
          assert ReservationRow(st.sessions, st.leases, l.req.pin, st.reservations[l.req.pin]);
        }
      }
    }
  }

  lemma AddLeaseCohorts(st: Pool, l: Lease)
    requires Cohorts(st.reservations) && MayEnter(st, l)
    ensures Cohorts(AddLease(st, l).reservations)
  {
    AddLeaseEffect(st, l);
    var su := AddLease(st, l);
    forall i, j | i in su.reservations && j in su.reservations && i != j
      ensures CohortPair(su.reservations[i], su.reservations[j])
    {
      assert CohortPair(st.reservations[i], st.reservations[j]);
    }
  }

  lemma AddLeasePinsSlot(st: Pool, l: Lease, r: nat, s: nat)
    requires MayEnter(st, l) && r in st.reservations
    requires ReservationRow(st.sessions, st.leases, r, st.reservations[r])
    ensures PinsSlot(AddLease(st, l).leases, AddLease(st, l).reservations[r], s)
            <==> PinsSlot(st.leases, st.reservations[r], s)
  {
    AddLeaseEffect(st, l);
  }

  lemma AddLeaseCounts(st: Pool, l: Lease, s: nat)
    requires MayEnter(st, l) && ReservationRows(st.sessions, st.leases, st.reservations)
    ensures
      var su := AddLease(st, l);
      && Holders(su.leases, s) == Holders(st.leases, s)
      && Waiting(su.leases, s) == Waiting(st.leases, s)
      && FreeHolders(su.leases, s) == FreeHolders(st.leases, s)
      && PinnedSlots(su.leases, su.reservations, s) == PinnedSlots(st.leases, st.reservations, s)
  {
    hide PinsSlot, MayEnter;
    var su := AddLease(st, l);
    assert l.state.Queued? by { EntersQueued(st, l); }
    AddLeaseEffect(st, l);
    forall r | r in st.reservations
      ensures PinsSlot(su.leases, su.reservations[r], s) <==> PinsSlot(st.leases, st.reservations[r], s)
    {
      AddLeasePinsSlot(st, l, r, s);
    }
  }

  lemma EntersQueued(st: Pool, l: Lease)
    requires MayEnter(st, l)
    ensures l.state.Queued? && l.session.None? && l.permit.None?
  {
  }

  lemma AddLeaseCapacity(st: Pool, l: Lease)
    requires MayEnter(st, l) && Capacity(st.sessions, st.leases, st.reservations)
    requires ReservationRows(st.sessions, st.leases, st.reservations)
    ensures var su := AddLease(st, l); Capacity(su.sessions, su.leases, su.reservations)
  {
    hide MayEnter, ReservationRows, PinnedSlots, FreeHolders, Holders, Waiting;
    var su := AddLease(st, l);
    forall s | s in su.sessions
      ensures Fits(su.sessions, su.leases, su.reservations, s)
    {
      assert Fits(st.sessions, st.leases, st.reservations, s);
      AddLeaseCounts(st, l, s);
    }
  }

  lemma AddLeaseOrder(safe: set<string>, st: Pool, l: Lease)
    requires WaveOrder(safe, st.sessions, st.leases) && MayEnter(st, l)
    ensures WaveOrder(safe, st.sessions, AddLease(st, l).leases)
  {
    AddLeaseEffect(st, l);
    var su := AddLease(st, l);
    if safe == {} {
      forall a, b, s | a in su.leases && b in su.leases && s in st.sessions
        ensures Ordered(st.sessions, s, a, su.leases[a], b, su.leases[b])
      {
        if a in st.leases && b in st.leases {
          assert Ordered(st.sessions, s, a, st.leases[a], b, st.leases[b]);
        }
      }
    }
  }

  lemma AddLeaseReservationRows(st: Pool, l: Lease)
    requires MayEnter(st, l) && ReservationRows(st.sessions, st.leases, st.reservations)
    ensures var su := AddLease(st, l); ReservationRows(su.sessions, su.leases, su.reservations)
  {
    hide MayEnter, ReservationRow;
    var su := AddLease(st, l);
    AddLeaseEffect(st, l);
    forall r | r in su.reservations
      ensures ReservationRow(su.sessions, su.leases, r, su.reservations[r])
    {
      AddLeaseReservationRow(st, l, r);
    }
  }

  lemma AddLeaseInv(safe: set<string>, st: Pool, l: Lease)
    requires Inv(safe, st) && MayEnter(st, l)
    ensures Inv(safe, AddLease(st, l))
  {
    hide MayEnter, LeaseRows, Sharing, ReservationRows, Pins, Cohorts, Capacity, WaveOrder, SessionRows;
    AddLeaseRows(st, l);
    AddLeaseSharing(safe, st, l);
    AddLeaseReservationRows(st, l);
    AddLeasePins(safe, st, l);
    AddLeaseCohorts(st, l);
    AddLeaseCapacity(st, l);
    AddLeaseOrder(safe, st, l);
  }

  lemma AddLeaseEvolves(st: Pool, l: Lease)
    requires MayEnter(st, l) && ReservationRows(st.sessions, st.leases, st.reservations)
    ensures Evolves(st, AddLease(st, l))
  {
    hide AddLease, NextId, WavesFrozen;
    AddLeaseEffect(st, l);
    assert WavesFrozen(st, AddLease(st, l)) by {
      AddLeaseWaves(st, l);
    }
    if l.req.pin != 0 {
      assert ReservationRow(st.sessions, st.leases, l.req.pin, st.reservations[l.req.pin]);
    }
  }

  lemma AddLeaseWaves(st: Pool, l: Lease)
    requires MayEnter(st, l)
    ensures WavesFrozen(st, AddLease(st, l))
  {
    hide AddLease, NextId;
    AddLeaseEffect(st, l);
  }

  lemma AddLeaseHistory(st: Pool, l: Lease)
    requires MayEnter(st, l)
    ensures
      var su := AddLease(st, l);
      Owned(st, su) && Quiet(NOTHING, st, su) && Arms(st, su) && (Barred(st) ==> Barred(su))
  {
    AddLeaseEffect(st, l);
  }

  lemma AddLeaseLifecycle(st: Pool, l: Lease)
    requires MayEnter(st, l)
    ensures var su := AddLease(st, l); Lifecycle(NOTHING, st, su) && Rests(NOTHING, st, su)
  {
    AddLeaseEffect(st, l);
  }

  lemma AddLeaseAdmits(target: int, st: Pool, l: Lease)
    requires MayEnter(st, l)
    ensures Admits(target, st, AddLease(st, l))
  {
    var su := AddLease(st, l);
    AddLeaseEffect(st, l);
    assert Admitted(su.leases, su.reservations) <= Admitted(st.leases, st.reservations) by {
      forall k | k in Admitted(su.leases, su.reservations)
        ensures k in Admitted(st.leases, st.reservations)
      {
        if id :| id in su.leases && su.leases[id].state.Holds() && k == AdmissionKey(id, su.leases[id]) {
          assert id in st.leases && st.leases[id].state.Holds();
        } else {
          var r :| r in su.reservations && su.reservations[r].state.Held() && k == ForTask(su.reservations[r].task);
          assert st.reservations[r].state.Held();
        }
      }
    }
    Subset(Admitted(su.leases, su.reservations), Admitted(st.leases, st.reservations));
  }

  lemma AddLeaseBatch(st: Pool, l: Lease)
    requires MayEnter(st, l) && ReservationRows(st.sessions, st.leases, st.reservations)
    ensures NoWave(st, AddLease(st, l)) && BarrierHolds({}, st, AddLease(st, l))
  {
    hide PinnedSlots, FreeHolders, Holders, Waiting;
    var su := AddLease(st, l);
    AddLeaseEffect(st, l);
    forall s | s in st.sessions
      ensures BatchClosed(st, su, s) && Holders(su.leases, s) == Holders(st.leases, s)
    {
      AddLeaseCounts(st, l, s);
    }
  }

  lemma AddLeaseKept(safe: set<string>, target: int, st: Pool, l: Lease)
    requires Inv(safe, st) && MayEnter(st, l)
    ensures Kept(safe, target, NOTHING, st, AddLease(st, l))
  {
    hide MayEnter, LeaseRows, Sharing, ReservationRows, Pins, Cohorts, Capacity, WaveOrder;
    hide Evolves, Owned, Quiet, Lifecycle, Rests, Arms, NoWave, Admits, BarrierHolds, Barred, SessionRows;
    AddLeaseInv(safe, st, l);
    AddLeaseEvolves(st, l);
    AddLeaseHistory(st, l);
    AddLeaseLifecycle(st, l);
    AddLeaseAdmits(target, st, l);
    AddLeaseBatch(st, l);
  }

  // ----- a new reservation -----

  /** A key names one Desktop generation and one expiry, and an automatic key is
      the only automatic one live there. */
  predicate KeyFits(rs: Reservations, r: Reservation) {
    forall q :: q in rs ==>
      && (rs[q].key == r.key ==>
            rs[q].session == r.session && rs[q].generation == r.generation && rs[q].expires == r.expires)
      && ((rs[q].state.Live() && rs[q].key.Auto? && r.key.Auto?
           && rs[q].session == r.session && rs[q].generation == r.generation) ==> rs[q].key == r.key)
  }

  /** Slots of `s` that no lease occupies and no reservation holds. */
  function FreeSlots(st: Pool, s: nat): int
    requires s in st.sessions
  {
    st.sessions[s].slots - |Holders(st.leases, s)| - |HeldByOthers(st.reservations, s, 0)|
  }

  ghost predicate MayReserve(st: Pool, target: int, r: Reservation) {
    && r.task != 0 && r.state.Reserved? && r.lease.None?
    && r.session in st.sessions && !st.sessions[r.session].state.Starting?
    && !st.sessions[r.session].isSealed && FreeSlots(st, r.session) > 0
    && KeyFits(st.reservations, r)
    && (forall q :: q in st.reservations && st.reservations[q].state.Live() ==> st.reservations[q].task != r.task)
    && (ForTask(r.task) in Admitted(st.leases, st.reservations)
        || |Admitted(st.leases, st.reservations)| < target)
  }

  lemma AddReservationRows(st: Pool, target: int, r: Reservation)
    requires MayReserve(st, target, r) && ReservationRows(st.sessions, st.leases, st.reservations)
    ensures ReservationRows(st.sessions, st.leases, AddReservation(st, r).reservations)
  {
    var su := AddReservation(st, r);
    forall q | q in su.reservations
      ensures ReservationRow(st.sessions, st.leases, q, su.reservations[q])
    {
      assert q in st.reservations ==> ReservationRow(st.sessions, st.leases, q, st.reservations[q]);
    }
  }

  lemma AddReservationPins(st: Pool, r: Reservation)
    requires Pins(st.leases, st.reservations)
    ensures Pins(st.leases, AddReservation(st, r).reservations)
  {
    forall id | id in st.leases
      ensures PinnedLease(AddReservation(st, r).reservations, id, st.leases[id])
    {
      assert PinnedLease(st.reservations, id, st.leases[id]);
    }
  }

  lemma AddReservationCohorts(st: Pool, target: int, r: Reservation)
    requires MayReserve(st, target, r) && Cohorts(st.reservations)
    ensures Cohorts(AddReservation(st, r).reservations)
  {
    var su := AddReservation(st, r);
    forall i, j | i in su.reservations && j in su.reservations && i != j
      ensures CohortPair(su.reservations[i], su.reservations[j])
    {
      assert i in st.reservations && j in st.reservations ==> CohortPair(st.reservations[i], st.reservations[j]);
    }
  }

  lemma AddReservationSlots(st: Pool, r: Reservation, s: nat)
    ensures PinnedSlots(st.leases, AddReservation(st, r).reservations, s)
            == PinnedSlots(st.leases, st.reservations, s)
               + (if PinsSlot(st.leases, r, s) then {NextId(st.reservations.Keys)} else {})
  {
  }

  lemma AddReservationCapacity(safe: set<string>, st: Pool, target: int, r: Reservation)
    requires Inv(safe, st) && MayReserve(st, target, r)
    ensures Capacity(st.sessions, st.leases, AddReservation(st, r).reservations)
  {
    hide LeaseRows, Sharing, ReservationRows, Pins, Cohorts, WaveOrder, PinnedSlots, FreeHolders, Holders, HeldByOthers;
    hide Admitted, KeyFits;
    var su := AddReservation(st, r);
    forall s | s in st.sessions
      ensures Fits(st.sessions, st.leases, su.reservations, s)
    {
      assert Fits(st.sessions, st.leases, st.reservations, s);
      AddReservationSlots(st, r, s);
      if s == r.session {
        SlotCount(safe, st, s);
      }
    }
  }

  lemma AddReservationInv(safe: set<string>, st: Pool, target: int, r: Reservation)
    requires Inv(safe, st) && MayReserve(st, target, r)
    ensures Inv(safe, AddReservation(st, r))
  {
    hide MayReserve, LeaseRows, Sharing, ReservationRows, Pins, Cohorts, Capacity, WaveOrder;
    AddReservationRows(st, target, r);
    AddReservationPins(st, r);
    AddReservationCohorts(st, target, r);
    AddReservationCapacity(safe, st, target, r);
  }

  lemma AddReservationAdmitted(st: Pool, r: Reservation)
    requires r.state.Reserved?
    ensures Admitted(AddReservation(st, r).leases, AddReservation(st, r).reservations)
            == Admitted(st.leases, st.reservations) + {ForTask(r.task)}
  {
    var su := AddReservation(st, r);
    var id := NextId(st.reservations.Keys);
    var before := set q | q in st.reservations && st.reservations[q].state.Held() :: ForTask(st.reservations[q].task);
    var after := set q | q in su.reservations && su.reservations[q].state.Held() :: ForTask(su.reservations[q].task);
    assert su.reservations[id] == r;
    forall k | k in before
      ensures k in after
    {
      var q :| q in st.reservations && st.reservations[q].state.Held() && k == ForTask(st.reservations[q].task);
      assert su.reservations[q] == st.reservations[q];
    }
    assert after == before + {ForTask(r.task)};
  }

  lemma AddReservationAdmits(st: Pool, target: int, r: Reservation)
    requires MayReserve(st, target, r)
    ensures Admits(target, st, AddReservation(st, r))
  {
    hide Admitted, KeyFits, NextId;
    AddReservationAdmitted(st, r);
    var before := Admitted(st.leases, st.reservations);
    if ForTask(r.task) in before {
      assert before + {ForTask(r.task)} == before;
    }
  }

  lemma ReservableSession(st: Pool, target: int, r: Reservation)
    requires MayReserve(st, target, r)
    ensures r.session in st.sessions && !st.sessions[r.session].isSealed
  {
  }

  lemma AddReservationCalm(st: Pool, r: Reservation)
    requires r.session in st.sessions && !st.sessions[r.session].isSealed
    ensures
      var su := AddReservation(st, r);
      && Owned(st, su) && Quiet(NOTHING, st, su) && Lifecycle(NOTHING, st, su) && Rests(NOTHING, st, su)
      && Arms(st, su) && NoWave(st, su) && BarrierHolds({}, st, su) && (Barred(st) ==> Barred(su))
  {
  }

  lemma AddReservationEvolves(st: Pool, r: Reservation)
    ensures Evolves(st, AddReservation(st, r))
  {
  }

  lemma AddReservationKept(safe: set<string>, st: Pool, target: int, r: Reservation)
    requires Inv(safe, st) && MayReserve(st, target, r)
    ensures Kept(safe, target, NOTHING, st, AddReservation(st, r))
  {
    hide MayReserve, Inv, Evolves, Owned, Quiet, Lifecycle, Rests, Arms, NoWave, Admits, BarrierHolds, Barred, Admitted;
    AddReservationInv(safe, st, target, r);
    AddReservationAdmits(st, target, r);
    assert r.session in st.sessions && !st.sessions[r.session].isSealed by { ReservableSession(st, target, r); }
    AddReservationCalm(st, r);
    AddReservationEvolves(st, r);
  }

  // ----- one slot for each task of an operator's cohort -----

  ghost predicate MayReserveAll(st: Pool, target: int, r: Reservation, tasks: seq<nat>) {
    && r.state.Reserved? && r.lease.None? && r.key.Operator?
    && r.session in st.sessions && !st.sessions[r.session].state.Starting? && !st.sessions[r.session].isSealed
    && |tasks| <= FreeSlots(st, r.session)
    && KeyFits(st.reservations, r)
    && 0 !in tasks
    && (forall i, j :: 0 <= i < j < |tasks| ==> tasks[i] != tasks[j])
    && (forall q :: q in st.reservations && st.reservations[q].state.Live() ==> st.reservations[q].task !in tasks)
    && |Admitted(st.leases, st.reservations)| + |tasks| <= target
  }

  lemma ReserveFirst(st: Pool, target: int, r: Reservation, tasks: seq<nat>)
    requires MayReserveAll(st, target, r, tasks) && tasks != []
    ensures MayReserve(st, target, r.(task := tasks[0]))
  {
    hide Admitted, FreeSlots;
    assert tasks[0] in tasks;
  }

  lemma HeldAfter(rs: Reservations, n: nat, r: Reservation)
    requires n !in rs && n != 0 && r.state.Reserved?
    ensures |HeldByOthers(rs[n := r], r.session, 0)| == |HeldByOthers(rs, r.session, 0)| + 1
  {
    var after := HeldByOthers(rs[n := r], r.session, 0);
    assert n in after;
    assert after - {n} == HeldByOthers(rs, r.session, 0);
  }

  lemma FewerSlots(st: Pool, r: Reservation)
    requires r.session in st.sessions && r.state.Reserved?
    ensures FreeSlots(AddReservation(st, r), r.session) == FreeSlots(st, r.session) - 1
  {
    HeldAfter(st.reservations, NextId(st.reservations.Keys), r);
    hide HeldByOthers, Holders;
  }

  lemma TasksLeft(st: Pool, r: Reservation, tasks: seq<nat>)
    requires tasks != [] && (forall i, j :: 0 <= i < j < |tasks| ==> tasks[i] != tasks[j])
    requires forall q :: q in st.reservations && st.reservations[q].state.Live() ==> st.reservations[q].task !in tasks
    ensures
      var su := AddReservation(st, r.(task := tasks[0]));
      forall q :: q in su.reservations && su.reservations[q].state.Live() ==> su.reservations[q].task !in tasks[1..]
  {
    var su := AddReservation(st, r.(task := tasks[0]));
    forall q | q in su.reservations && su.reservations[q].state.Live()
      ensures su.reservations[q].task !in tasks[1..]
    {
      if q in st.reservations {
        assert st.reservations[q].task !in tasks;
      }
    }
  }

  lemma ReserveNext(st: Pool, target: int, r: Reservation, tasks: seq<nat>)
    requires MayReserveAll(st, target, r, tasks) && tasks != [] && 0 !in st.reservations
    ensures MayReserveAll(AddReservation(st, r.(task := tasks[0])), target, r, tasks[1..])
  {
    var first := r.(task := tasks[0]);
    var su := AddReservation(st, first);
    AddReservationAdmitted(st, first);
    FewerSlots(st, first);
    TasksLeft(st, r, tasks);
    KeyStillFits(st, first);
    hide Admitted, FreeSlots, KeyFits, AddReservation;
  }

  lemma KeyStillFits(st: Pool, r: Reservation)
    requires KeyFits(st.reservations, r)
    ensures forall t :: KeyFits(AddReservation(st, r).reservations, r.(task := t))
  {
  }

  lemma {:induction false} AddReservationsKept(safe: set<string>, st: Pool, target: int, r: Reservation, tasks: seq<nat>)
    requires Inv(safe, st) && MayReserveAll(st, target, r, tasks)
    ensures Kept(safe, target, NOTHING, st, AddReservations(st, r, tasks))
    decreases |tasks|
  {
    hide LeaseRows, Sharing, Pins, Cohorts, Capacity, WaveOrder, SessionRows, MayReserveAll, MayReserve, Calm, Barred, Arms, ReservationRow;
    if tasks == [] {
      EbbSelf(safe, target, st);
    } else {
      var su := AddReservation(st, r.(task := tasks[0]));
      ReserveFirst(st, target, r, tasks);
      ReserveNext(st, target, r, tasks);
      AddReservationKept(safe, st, target, r.(task := tasks[0]));
      AddReservationsKept(safe, su, target, r, tasks[1..]);
      KeptChain(safe, target, st, su, AddReservations(su, r, tasks[1..]));
    }
  }

  // ----- a new Desktop -----

  lemma AddSessionCapacity(st: Pool, x: Session)
    requires LeaseRows(st.sessions, st.leases) && ReservationRows(st.sessions, st.leases, st.reservations)
    requires Capacity(st.sessions, st.leases, st.reservations)
    ensures Capacity(AddSession(st, x).sessions, st.leases, st.reservations)
  {
    var su := AddSession(st, x);
    AddSessionEmpty(st, NextId(st.sessions.Keys));
    hide LeaseRows, ReservationRows, FreeHolders, PinnedSlots, NextId;
    forall t | t in su.sessions
      ensures Fits(su.sessions, st.leases, st.reservations, t)
    {
      assert t in st.sessions ==> Fits(st.sessions, st.leases, st.reservations, t);
    }
  }

  lemma AddSessionOrder(safe: set<string>, st: Pool, x: Session)
    requires WaveOrder(safe, st.sessions, st.leases) && !x.isSealed
    ensures WaveOrder(safe, AddSession(st, x).sessions, st.leases)
  {
    hide NextId;
    var su := AddSession(st, x);
    if safe == {} {
      forall a, b, t | a in su.leases && b in su.leases && t in su.sessions
        ensures Ordered(su.sessions, t, a, su.leases[a], b, su.leases[b])
      {
        assert t in st.sessions ==> Ordered(st.sessions, t, a, st.leases[a], b, st.leases[b]);
      }
    }
  }

  lemma AddSessionInv(safe: set<string>, st: Pool, x: Session)
    requires Inv(safe, st) && !x.isSealed && Booted(x)
    ensures Inv(safe, AddSession(st, x))
  {
    hide Sharing, Pins, Cohorts, LeaseRows, ReservationRows, Capacity, WaveOrder, NextId;
    assert SessionRows(AddSession(st, x).sessions);
    hide SessionRows;
    AddSessionRows(st, x);
    AddSessionCapacity(st, x);
    AddSessionOrder(safe, st, x);
  }

  lemma AddSessionRows(st: Pool, x: Session)
    requires LeaseRows(st.sessions, st.leases) && ReservationRows(st.sessions, st.leases, st.reservations)
    ensures var su := AddSession(st, x);
            LeaseRows(su.sessions, su.leases) && ReservationRows(su.sessions, su.leases, su.reservations)
  {
    var su := AddSession(st, x);
    forall id | id in su.leases
      ensures LeaseRow(su.sessions, su.leases[id])
    {
      assert LeaseRow(st.sessions, st.leases[id]);
    }
    forall r | r in su.reservations
      ensures ReservationRow(su.sessions, su.leases, r, su.reservations[r])
    {
      assert ReservationRow(st.sessions, st.leases, r, st.reservations[r]);
    }
  }

  lemma AddSessionEmpty(st: Pool, s: nat)
    requires LeaseRows(st.sessions, st.leases) && ReservationRows(st.sessions, st.leases, st.reservations)
    requires s !in st.sessions
    ensures FreeHolders(st.leases, s) == {} && PinnedSlots(st.leases, st.reservations, s) == {}
  {
    forall id | id in st.leases
      ensures !Holder(st.leases[id], s)
    {
      assert LeaseRow(st.sessions, st.leases[id]);
    }
    forall r | r in st.reservations
      ensures st.reservations[r].session != s
    {
      assert ReservationRow(st.sessions, st.leases, r, st.reservations[r]);
    }
  }

  lemma AddSessionHistory(st: Pool, x: Session)
    requires !x.isSealed
    ensures
      var su := AddSession(st, x);
      && Evolves(st, su) && Owned(st, su) && Quiet(NOTHING, st, su) && NoWave(st, su) && BarrierHolds({}, st, su)
  {
    hide NextId;
  }

  lemma AddSessionRest(st: Pool, x: Session)
    ensures
      var su := AddSession(st, x);
      && Lifecycle(NOTHING, st, su) && Rests(NOTHING, st, su) && Arms(st, su) && (Barred(st) ==> Barred(su))
  {
    var su := AddSession(st, x);
    if Barred(st) {
      forall id | id in su.leases
        ensures BehindBarrier(su.sessions, su.leases[id])
      {
        assert BehindBarrier(st.sessions, st.leases[id]);
      }
    }
  }

  lemma AddSessionKept(safe: set<string>, target: int, st: Pool, x: Session)
    requires Inv(safe, st) && !x.isSealed && Booted(x)
    ensures Kept(safe, target, NOTHING, st, AddSession(st, x))
  {
    hide Inv, Evolves, Owned, Quiet, NoWave, BarrierHolds, Lifecycle, Rests, Arms, Barred;
    AddSessionInv(safe, st, x);
    AddSessionHistory(st, x);
    AddSessionRest(st, x);
  }

  lemma {:induction false} AddSessionsKept(safe: set<string>, target: int, st: Pool, xs: seq<Session>)
    requires Inv(safe, st) && (forall i :: 0 <= i < |xs| ==> !xs[i].isSealed && Booted(xs[i]))
    ensures Kept(safe, target, NOTHING, st, AddSessions(st, xs))
    decreases |xs|
  {
    hide Inv, Calm, Barred, Arms;
    if xs == [] {
      EbbSelf(safe, target, st);
    } else {
      var su := AddSession(st, xs[0]);
      AddSessionKept(safe, target, st, xs[0]);
      AddSessionsKept(safe, target, su, xs[1..]);
      KeptChain(safe, target, st, su, AddSessions(su, xs[1..]));
    }
  }

  // ----- the completion marker -----

  /** The marker names exactly the Desktop and the wave of the permit. */
  lemma MarkPipelineEbbs(safe: set<string>, target: int, st: Pool, id: nat)
    requires Inv(safe, st) && id in st.leases && st.leases[id].state.Active?
    requires st.leases[id].session.Some? && st.leases[id].permit.Some?
    ensures Ebbs(safe, target, st, MarkPipeline(st, id))
  {
    hide Inv, Ebbs;
    var l := st.leases[id];
    OneLeaseEbbs(safe, target, st, id, l.(marker := Some(Marker(l.session.value, l.permit.value))));
  }
}
