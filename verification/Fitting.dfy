/** Which Desktop a queued lease gets, and when it gets none: exactly, on rows. */
module PoolFitting {
  import opened PoolRows
  import opened PoolTerms
  import opened PoolInvariant
  import opened PoolCalm
  import opened PoolRefresh
  import opened PoolPlacement
  import opened PoolPlacementProofs
  import opened PoolCursor
  import opened PoolHostProofs

  /** Slots kept free on `s` for reservations other than the lease's own. */
  function KeptSlots(rs: Reservations, s: nat, pin: nat): set<nat> {
    set r | r in rs && rs[r].session == s && KeepsSlot(rs[r]) && r != pin
  }

  /** The lease may share a Desktop with whoever redeems the reservation: their cohort is
      the same, or the reservation's contract agrees with the lease's. */
  predicate SharesWith(q: Request, rs: Reservations, r: nat)
    requires r in rs
  {
    (q.pin in rs && rs[q.pin].key == rs[r].key)
    || (&& q.protocol >= 2 && rs[r].family != "" && rs[r].profile == q.profile
        && ((q.policy.Family? && rs[r].policy == Some(Family) && rs[r].family == q.family)
            || (q.policy.SharedIfCompatible? && rs[r].policy == Some(SharedIfCompatible))))
  }

  /** The Desktop is healthy, open to new projects, on an allocation in service that is not too
      old, and where the lease wants to be. */
  predicate Offers(st: Pool, cfg: Config, l: Lease, s: nat, now: int)
    requires s in st.sessions
  {
    var x := st.sessions[s];
    && Works(x) && !x.isSealed && x.blockedAt.None?
    && x.heartbeat.Some? && now - cfg.sessionTimeout <= x.heartbeat.value
    && InService(st.allocations, x.allocation)
    && (cfg.allocationMaxAge != 0 ==> now - cfg.allocationMaxAge < st.allocations[x.allocation].created)
    && (l.wantAllocation != 0 ==> x.allocation == l.wantAllocation)
    && (l.wantNode != "" ==> x.node == l.wantNode)
    && (l.req.pinSession != 0 ==> s == l.req.pinSession && x.generation == l.req.pinGeneration)
    && (l.req.protocol >= 2 ==> x.profile == l.req.profile)
  }

  /** Every owner of the Desktop may share it with the lease. */
  predicate OwnersShare(q: Request, ls: Leases, s: nat) {
    forall o :: o in Owners(ls, s) ==> Compatible(ls[o].req, q)
  }

  /** Everybody for whom a slot is kept may share it too. */
  predicate HoldsShare(q: Request, rs: Reservations, s: nat) {
    forall r :: r in KeptSlots(rs, s, q.pin) ==> SharesWith(q, rs, r)
  }

  /** The Desktop has a slot for the lease, and everybody there and on the way can share it. */
  predicate Welcomes(st: Pool, cfg: Config, id: nat, s: nat, now: int)
    requires id in st.leases
  {
    s in st.sessions &&
    var q := st.leases[id].req;
    && Offers(st, cfg, st.leases[id], s, now)
    && |Owners(st.leases, s)| + |KeptSlots(st.reservations, s, q.pin)| < st.sessions[s].slots
    && OwnersShare(q, st.leases, s)
    && HoldsShare(q, st.reservations, s)
  }

  /** The lease may be placed: it waits, its time is not over and its task has not ended, its
      pin waits for it, and with it the admissions stay within the target. */
  predicate MayEnter(st: Pool, cfg: Config, id: nat, now: int)
    requires id in st.leases
  {
    var l := st.leases[id];
    && l.state.Queued? && now < l.deadline
    && (l.req.task != 0 ==> !TaskEnded(st.tasks, l.req.task))
    && (l.req.pin != 0 ==> l.req.pin in st.reservations && st.reservations[l.req.pin].state.Claimed?
                           && st.reservations[l.req.pin].lease == Some(id))
    && |Admitted(st.leases, st.reservations) - {AdmissionKey(id, l)}| < cfg.target
  }

  /** `s` has more owners than `t`, or as many and the smaller id. */
  predicate Precedes(ls: Leases, s: nat, t: nat) {
    |Owners(ls, s)| > |Owners(ls, t)| || (|Owners(ls, s)| == |Owners(ls, t)| && s <= t)
  }

  predicate SlotTaken(ls: Leases, s: nat, index: nat) {
    exists o :: o in Owners(ls, s) && ls[o].slot == index
  }

  /** The lease has a slot of `s`: the least index nobody there uses. */
  predicate Seated(st: Pool, cfg: Config, l: Lease, m: Lease, s: nat, now: int) {
    && m == l.(state := if l.req.protocol >= 2 then Offered else Leased, session := Some(s), slot := m.slot,
               offerExpires := now + cfg.offerAck)
    && !SlotTaken(st.leases, s, m.slot) && (forall i :: 0 <= i < m.slot ==> SlotTaken(st.leases, s, i))
  }

  /** The placed lease, its redeemed reservation and its Desktop; nothing else changes. */
  ghost predicate PlacedOn(st: Pool, su: Pool, cfg: Config, id: nat, s: nat, now: int)
    requires id in st.leases && s in st.sessions
  {
    var l := st.leases[id];
    var x := st.sessions[s];
    && su == st.(leases := su.leases, reservations := su.reservations, sessions := su.sessions)
    && id in su.leases && su.leases == st.leases[id := su.leases[id]]
    && Seated(st, cfg, l, su.leases[id], s, now)
    && su.reservations == (if l.req.pin != 0 && l.req.pin in st.reservations
                           then st.reservations[l.req.pin := st.reservations[l.req.pin].(state := Consumed)]
                           else st.reservations)
    && su.sessions == st.sessions[s := x.(state := Busy, profile := if x.profile == "" then l.req.profile else x.profile)]
  }

  /** One lease's turn. */
  ghost predicate Turn(st: Pool, su: Pool, cfg: Config, id: nat, now: int) {
    if id in st.leases && MayEnter(st, cfg, id, now) && exists s :: Welcomes(st, cfg, id, s, now) then
      exists s :: Welcomes(st, cfg, id, s, now) && PlacedOn(st, su, cfg, id, s, now)
        && forall t :: Welcomes(st, cfg, id, t, now) ==> Precedes(st.leases, s, t)
    else su == st
  }

  // ----- the terms of the placement query -----

  /** Without the lease, its task and its pin the admissions are those of everybody else. */
  lemma OthersAdmitted(safe: set<string>, st: Pool, id: nat)
    requires Inv(safe, st) && id in st.leases && st.leases[id].state.Queued?
    ensures AdmittedWithout(st, id) == Admitted(st.leases, st.reservations) - {AdmissionKey(id, st.leases[id])}
  {
    hide Sharing, Cohorts, Capacity, WaveOrder, SessionRows, Rooted, PoolInvariant.Seated, Permitted, Marked, Settled;
    var q := st.leases[id].req;
    assert LeaseRow(st.sessions, st.leases[id]);
    if q.pin != 0 {
      PinTarget(st.sessions, st.leases, st.reservations, id);
    }
    hide LeaseRows, Pins, LeaseRow;
    OthersKeys(st, id);
  }

  lemma OthersKeys(st: Pool, id: nat)
    requires id in st.leases && st.leases[id].state.Queued?
    requires ReservationRows(st.sessions, st.leases, st.reservations)
    requires
      var q := st.leases[id].req;
      q.pin != 0 ==> q.task != 0 && q.pin in st.reservations && st.reservations[q.pin].task == q.task
    ensures AdmittedWithout(st, id) == Admitted(st.leases, st.reservations) - {AdmissionKey(id, st.leases[id])}
  {
    var q := st.leases[id].req;
    forall r | r in st.reservations
      ensures st.reservations[r].task != 0
    {
      assert ReservationRow(st.sessions, st.leases, r, st.reservations[r]);
    }
    hide ReservationRows, ReservationRow;
  }

  lemma OwnersShareIff(q: Request, ls: Leases, s: nat)
    ensures OwnersCompatible(q, ls, s) <==> OwnersShare(q, ls, s)
  {
    assert forall o :: o in ls && Holder(ls[o], s) <==> o in Owners(ls, s);
  }

  lemma HoldsShareIff(q: Request, rs: Reservations, s: nat)
    ensures HoldsCompatible(q, rs, s) <==> HoldsShare(q, rs, s)
  {
    assert forall r :: r in ForeignHolds(rs, s, q.pin)
                  <==> r in KeptSlots(rs, s, q.pin) && !(q.pin in rs && rs[q.pin].key == rs[r].key);
    hide ForeignHolds;
  }

  lemma SameKeptSlots(rs: Reservations, s: nat, pin: nat)
    ensures KeptSlots(rs, s, pin) == HeldByOthers(rs, s, pin)
  {
  }

  lemma FitsIffWelcomes(st: Pool, cfg: Config, id: nat, s: nat, now: int)
    requires LeaseRows(st.sessions, st.leases) && id in st.leases
    ensures s in st.sessions && Selectable(st, cfg, id, s, now) && LeaseFits(st, id, s) <==> Welcomes(st, cfg, id, s, now)
  {
    SameOwners(st.leases, s);
    SameKeptSlots(st.reservations, s, st.leases[id].req.pin);
    OwnersShareIff(st.leases[id].req, st.leases, s);
    HoldsShareIff(st.leases[id].req, st.reservations, s);
    hide OwnersCompatible, HoldsCompatible, HoldsShare, OwnersShare, Owners, KeptSlots, LeaseRows;
  }

  lemma EntersIff(safe: set<string>, st: Pool, cfg: Config, id: nat, now: int)
    requires Inv(safe, st) && id in st.leases
    ensures MayPlace(st, cfg, id, now) && PinClaimed(st, id) <==> MayEnter(st, cfg, id, now)
  {
    if st.leases[id].state.Queued? {
      OthersAdmitted(safe, st, id);
    }
    hide Inv, AdmittedWithout, Admitted;
  }

  lemma SeatPlaces(st: Pool, cfg: Config, id: nat, s: nat, now: int)
    requires id in st.leases && s in st.sessions && Works(st.sessions[s]) && !st.sessions[s].isSealed
    requires st.leases[id].state.Queued?
    ensures PlacedOn(st, RefreshSessions(Seat(st, cfg, id, s, now), {s}), cfg, id, s, now)
  {
    var su := Seat(st, cfg, id, s, now);
    assert Holder(su.leases[id], s);
    assert !NoHolder(su.leases, s);
    SameOwners(st.leases, s);
    SlotFree(st, s);
    hide FreeIndex, OccupiedSlots, Owners, Holders, SlotTaken;
    var sv := RefreshSessions(su, {s});
    assert sv.sessions == st.sessions[s := sv.sessions[s]];
  }

  lemma SlotFree(st: Pool, s: nat)
    ensures
      var index := FreeIndex(OccupiedSlots(st.leases, s), 0);
      !SlotTaken(st.leases, s, index) && forall i :: 0 <= i < index ==> SlotTaken(st.leases, s, i)
  {
    var occupied := OccupiedSlots(st.leases, s);
    forall i
      ensures i in occupied <==> SlotTaken(st.leases, s, i)
    {
      if i in occupied {
        var o :| o in st.leases && Holder(st.leases[o], s) && st.leases[o].slot == i;
        assert o in Owners(st.leases, s);
      }
      if SlotTaken(st.leases, s, i) {
        var o :| o in Owners(st.leases, s) && st.leases[o].slot == i;
        assert Holder(st.leases[o], s);
      }
    }
    hide SlotTaken, OccupiedSlots;
  }

  lemma Placed(safe: set<string>, st: Pool, cfg: Config, id: nat, now: int)
    requires Inv(safe, st) && id in st.leases
    ensures
      var su := PlaceOne(st, cfg, id, now);
      if MayEnter(st, cfg, id, now) && exists s :: Welcomes(st, cfg, id, s, now) then
        exists s :: Welcomes(st, cfg, id, s, now) && PlacedOn(st, su, cfg, id, s, now)
          && forall t :: Welcomes(st, cfg, id, t, now) ==> Precedes(st.leases, s, t)
      else su == st
  {
    InvLeases(safe, st);
    EntersIff(safe, st, cfg, id, now);
    hide Inv, MayEnter, MayPlace, PinClaimed, Seat, RefreshSessions, PlacedOn, Selectable, LeaseFits, Welcomes, LeaseRows;
    forall s
      ensures s in st.sessions && Selectable(st, cfg, id, s, now) && LeaseFits(st, id, s) <==> Welcomes(st, cfg, id, s, now)
    {
      FitsIffWelcomes(st, cfg, id, s, now);
    }
    var fits := FittingSessions(st, cfg, id, now);
    if MayEnter(st, cfg, id, now) {
      assert forall s :: s in fits <==> Welcomes(st, cfg, id, s, now);
      if fits != {} {
        var s := First(st.leases, fits);
        FirstPrecedes(st.leases, fits);
        assert Welcomes(st, cfg, id, s, now);
        WelcomesOpen(st, cfg, id, s, now);
        EntersQueued(st, cfg, id, now);
        SeatPlaces(st, cfg, id, s, now);
      }
    } else {
      hide FittingSessions;
      NotPlaced(st, cfg, id, now);
    }
  }

  /** A lease that may enter gets a slot on the Desktop that comes first among those that
      welcome it: the one with most owners, then the smallest id. It stays queued, and
      nothing changes, exactly when it may not enter or no Desktop welcomes it. */
  lemma PlacementOutcome(safe: set<string>, st: Pool, cfg: Config, id: nat, now: int)
    requires Inv(safe, st)
    ensures Turn(st, PlaceOne(st, cfg, id, now), cfg, id, now)
  {
    hide Inv, MayEnter, Welcomes, PlacedOn;
    if id in st.leases {
      hide PlaceOne;
      Placed(safe, st, cfg, id, now);
    }
  }

  lemma NotPlaced(st: Pool, cfg: Config, id: nat, now: int)
    requires id in st.leases && !(MayPlace(st, cfg, id, now) && PinClaimed(st, id))
    ensures PlaceOne(st, cfg, id, now) == st
  {
    hide MayPlace, PinClaimed;
    assert !PinClaimed(st, id) ==> FittingSessions(st, cfg, id, now) == {};
  }

  lemma WelcomesOpen(st: Pool, cfg: Config, id: nat, s: nat, now: int)
    requires id in st.leases && Welcomes(st, cfg, id, s, now)
    ensures s in st.sessions && Works(st.sessions[s]) && !st.sessions[s].isSealed
  {
  }

  lemma EntersQueued(st: Pool, cfg: Config, id: nat, now: int)
    requires id in st.leases && MayEnter(st, cfg, id, now)
    ensures st.leases[id].state.Queued?
  {
  }

  lemma InvLeases(safe: set<string>, st: Pool)
    requires Inv(safe, st)
    ensures LeaseRows(st.sessions, st.leases)
  {
  }

  lemma FirstPrecedes(ls: Leases, fits: set<nat>)
    requires fits != {}
    ensures forall t :: t in fits ==> Precedes(ls, First(ls, fits), t)
  {
    forall t | t in fits
      ensures Precedes(ls, First(ls, fits), t)
    {
      SameOwners(ls, First(ls, fits));
      SameOwners(ls, t);
      assert Before(ls, First(ls, fits), t);
    }
  }

  // ----- a whole pass -----

  /** Queued leases whose clients still poll; protocol-1 clients are not asked to. */
  function Polling(st: Pool, cfg: Config, now: int): set<nat> {
    set id | id in st.leases && st.leases[id].state.Queued?
             && (st.leases[id].req.protocol >= 2 ==> now - cfg.queuedStale <= st.leases[id].heartbeat)
  }

  /** The listed leases have their turns one after the other. */
  ghost predicate Turns(st: Pool, su: Pool, cfg: Config, ids: seq<nat>, now: int)
    decreases |ids|
  {
    if ids == [] then su == st
    else exists mid :: Turn(st, mid, cfg, ids[0], now) && Turns(mid, su, cfg, ids[1..], now)
  }

  lemma {:induction false} EachHasTurn(safe: set<string>, st: Pool, cfg: Config, ids: seq<nat>, now: int)
    requires Inv(safe, st)
    ensures Turns(st, PlaceEach(st, cfg, ids, now), cfg, ids, now)
    decreases |ids|
  {
    hide Inv, Turn, PlaceOne, Kept;
    if ids != [] {
      var mid := PlaceOne(st, cfg, ids[0], now);
      PlacementOutcome(safe, st, cfg, ids[0], now);
      PlaceOneKept(safe, st, cfg, ids[0], now);
      KeptInv(safe, cfg.target, NOTHING, st, mid);
      EachHasTurn(safe, mid, cfg, ids[1..], now);
    }
  }

  lemma SamePolling(st: Pool, cfg: Config, now: int)
    ensures Eligible(st, cfg, now) == Polling(st, cfg, now)
  {
  }

  /** A pass over the queue: the polling leases that the cursor selects have their turns in
      its order. A pass for one lease: its turn, if it polls. */
  lemma PassOutcome(safe: set<string>, st: Pool, cfg: Config, now: int)
    requires Inv(safe, st)
    ensures
      var su := PlaceBatch(st, cfg, now);
      if cfg.operational then
        var batch := Batch(Polling(st, cfg, now), st.cursor);
        Turns(st.(cursor := NextCursor(batch)), su, cfg, batch, now)
      else su == st
    ensures
      forall id ::
        var su := PlaceNamed(st, cfg, id, now);
        if cfg.operational && id in Polling(st, cfg, now) then Turn(st, su, cfg, id, now) else su == st
  {
    SamePolling(st, cfg, now);
    var batch := Batch(Polling(st, cfg, now), st.cursor);
    CursorKeeps(safe, st, NextCursor(batch));
    hide Inv, Turn, PlaceOne, Polling, Eligible, Batch;
    EachHasTurn(safe, st.(cursor := NextCursor(batch)), cfg, batch, now);
    forall id
      ensures PlaceEach(st, cfg, [id], now) == PlaceOne(st, cfg, id, now)
      ensures Turn(st, PlaceOne(st, cfg, id, now), cfg, id, now)
    {
      assert PlaceEach(PlaceOne(st, cfg, id, now), cfg, [], now) == PlaceOne(st, cfg, id, now);
      PlacementOutcome(safe, st, cfg, id, now);
    }
  }

  /** The cursor is no part of the invariant. */
  lemma CursorKeeps(safe: set<string>, st: Pool, cursor: nat)
    requires Inv(safe, st)
    ensures Inv(safe, st.(cursor := cursor))
  {
  }
}
