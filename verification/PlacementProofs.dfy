/** Placement keeps slots, sharing, admission and sealed batches. */
module PoolPlacementProofs {
  import opened PoolRows
  import opened PoolInvariant
  import opened PoolSettle
  import opened PoolCalm
  import opened PoolRefresh
  import opened PoolRefreshProofs
  import opened PoolPlacement

  // ----- counting -----

  /** An injective map into a set is no larger than the set. */
  lemma {:induction false} Injection(f: map<nat, nat>, into: set<nat>)
    requires forall a :: a in f ==> f[a] in into
    requires forall a, b :: a in f && b in f && a != b ==> f[a] != f[b]
    ensures |f.Keys| <= |into|
    decreases |f.Keys|
  {
    if f.Keys != {} {
      var a :| a in f;
      var g := f - {a};
      assert g.Keys == f.Keys - {a};
      Injection(g, into - {f[a]});
    }
  }

  lemma {:induction false} DistinctSlots(ls: Leases, ids: set<nat>, s: nat)
    requires ids <= ls.Keys
    ensures |set id | id in ids :: ls[id].slot| <= |ids|
    decreases |ids|
  {
    var slots := set id | id in ids :: ls[id].slot;
    if ids != {} {
      var a :| a in ids;
      var rest := set id | id in ids - {a} :: ls[id].slot;
      assert slots == rest + {ls[a].slot};
      DistinctSlots(ls, ids - {a}, s);
    }
  }

  /** Fewer occupied slots than the bound leave a free index below it. */
  lemma {:induction false} FreeIndexBound(occupied: set<nat>, from: nat)
    ensures FreeIndex(occupied, from) <= from + |occupied|
    decreases |occupied|
  {
    if from in occupied {
      FreeIndexBound(occupied - {from}, from + 1);
    }
  }

  lemma FreeSlotInRange(ls: Leases, s: nat, slots: nat)
    requires |Holders(ls, s)| < slots
    ensures FreeIndex(OccupiedSlots(ls, s), 0) < slots
  {
    assert OccupiedSlots(ls, s) == set id | id in Holders(ls, s) :: ls[id].slot;
    DistinctSlots(ls, Holders(ls, s), s);
    FreeIndexBound(OccupiedSlots(ls, s), 0);
  }

  /** Holders of `s` that arrived through a reservation. */
  function PinnedHolders(ls: Leases, s: nat): set<nat> {
    set id | id in ls && Holder(ls[id], s) && ls[id].req.pin != 0
  }

  lemma HoldersSplit(ls: Leases, s: nat)
    ensures |Holders(ls, s)| == |FreeHolders(ls, s)| + |PinnedHolders(ls, s)|
  {
    assert Holders(ls, s) == FreeHolders(ls, s) + PinnedHolders(ls, s);
  }

  /** Reservations of `s` whose lease already sits there. */
  function Seats(ls: Leases, rs: Reservations, s: nat): set<nat> {
    set r | r in rs && PinsSlot(ls, rs[r], s) && !rs[r].state.Held()
  }

  lemma SeatsSplit(ls: Leases, rs: Reservations, s: nat)
    ensures |PinnedSlots(ls, rs, s)| == |HeldByOthers(rs, s, 0)| + |Seats(ls, rs, s)|
    requires 0 !in rs
  {
    forall r
      ensures r in PinnedSlots(ls, rs, s) <==> r in HeldByOthers(rs, s, 0) || r in Seats(ls, rs, s)
      ensures r !in HeldByOthers(rs, s, 0) || r !in Seats(ls, rs, s)
    {
    }
    hide PinnedSlots, HeldByOthers, Seats;
    assert PinnedSlots(ls, rs, s) == HeldByOthers(rs, s, 0) + Seats(ls, rs, s);
  }

  lemma SeatsAreHolders(ss: Sessions, ls: Leases, rs: Reservations, s: nat)
    requires ReservationRows(ss, ls, rs)
    ensures |Seats(ls, rs, s)| <= |PinnedHolders(ls, s)|
  {
    var f := map r | r in Seats(ls, rs, s) :: rs[r].lease.value;
    forall r | r in f
      ensures f[r] in PinnedHolders(ls, s) && ls[f[r]].req.pin == r
    {
      assert ReservationRow(ss, ls, r, rs[r]);
    }
    assert f.Keys == Seats(ls, rs, s);
    Injection(f, PinnedHolders(ls, s));
  }

  lemma HoldersAreSeats(ss: Sessions, ls: Leases, rs: Reservations, s: nat)
    requires LeaseRows(ss, ls) && ReservationRows(ss, ls, rs) && Pins(ls, rs)
    ensures |PinnedHolders(ls, s)| <= |Seats(ls, rs, s)|
  {
    var f := map id | id in PinnedHolders(ls, s) :: ls[id].req.pin;
    forall id | id in f
      ensures f[id] in Seats(ls, rs, s) && rs[f[id]].lease == Some(id)
    {
      assert PinnedLease(rs, id, ls[id]) && LeaseRow(ss, ls[id]);
      assert ReservationRow(ss, ls, f[id], rs[f[id]]);
    }
    assert f.Keys == PinnedHolders(ls, s);
    Injection(f, Seats(ls, rs, s));
  }

  /** The code's slot count equals the count the invariant bounds. */
  lemma SlotCount(safe: set<string>, st: Pool, s: nat)
    requires Inv(safe, st)
    ensures |Holders(st.leases, s)| + |HeldByOthers(st.reservations, s, 0)|
            == |FreeHolders(st.leases, s)| + |PinnedSlots(st.leases, st.reservations, s)|
  {
    HoldersSplit(st.leases, s);
    SeatsSplit(st.leases, st.reservations, s);
    SeatsAreHolders(st.sessions, st.leases, st.reservations, s);
    HoldersAreSeats(st.sessions, st.leases, st.reservations, s);
  }

  // ----- seating one lease -----

  ghost predicate Seatable(st: Pool, id: nat, s: nat) {
    && id in st.leases && s in st.sessions && st.leases[id].state.Queued?
    && st.sessions[s].state.Assignable() && !st.sessions[s].isSealed && st.sessions[s].blockedAt.None?
    && PinClaimed(st, id) && LeaseFits(st, id, s)
    && (st.leases[id].req.pin != 0 ==> st.leases[id].req.pinSession == s)
  }

  /** The rows that `Seat` leaves alone, and the ones it writes. */
  lemma SeatEffect(st: Pool, cfg: Config, id: nat, s: nat, now: int)
    requires id in st.leases && s in st.sessions
    ensures
      var su := Seat(st, cfg, id, s, now);
      && su.leases.Keys == st.leases.Keys
      && (forall i :: i in st.leases && i != id ==> su.leases[i] == st.leases[i])
      && su.leases[id].req == st.leases[id].req && su.leases[id].permit == st.leases[id].permit
      && su.leases[id].marker == st.leases[id].marker
      && su.leases[id].session == Some(s)
      && su.leases[id].slot == FreeIndex(OccupiedSlots(st.leases, s), 0)
      && (su.leases[id].state == if st.leases[id].req.protocol >= 2 then Offered else Leased)
      && su.reservations.Keys == st.reservations.Keys
      && (forall r :: r in st.reservations && r != st.leases[id].req.pin ==>
            su.reservations[r] == st.reservations[r])
      && (forall r :: r in st.reservations && r == st.leases[id].req.pin ==>
            su.reservations[r] == if r != 0 then st.reservations[r].(state := Consumed) else st.reservations[r])
      && su.sessions.Keys == st.sessions.Keys
      && (forall t :: t in st.sessions ==> su.sessions[t].(profile := st.sessions[t].profile) == st.sessions[t])
  {
  }

  /** A pinned lease and its reservation name each other and one Desktop. */
  lemma PinTarget(ss: Sessions, ls: Leases, rs: Reservations, id: nat)
    requires ReservationRows(ss, ls, rs) && Pins(ls, rs) && id in ls && ls[id].req.pin != 0
    ensures
      var q := ls[id].req;
      && q.pin in rs && rs[q.pin].lease == Some(id) && rs[q.pin].session == q.pinSession
      && rs[q.pin].task == q.task && q.task != 0 && q.pinSession in ss
  {
    assert PinnedLease(rs, id, ls[id]);
    assert ReservationRow(ss, ls, ls[id].req.pin, rs[ls[id].req.pin]);
  }

  lemma SeatLeaseRow(st: Pool, cfg: Config, id: nat, s: nat, now: int)
    requires Seatable(st, id, s) && LeaseRow(st.sessions, st.leases[id]) && Booted(st.sessions[s])
    ensures LeaseRow(Seat(st, cfg, id, s, now).sessions, Seat(st, cfg, id, s, now).leases[id])
  {
    FreeSlotInRange(st.leases, s, st.sessions[s].slots);
  }

  lemma SeatLeaseRows(safe: set<string>, st: Pool, cfg: Config, id: nat, s: nat, now: int)
    requires Inv(safe, st) && Seatable(st, id, s)
    ensures LeaseRows(Seat(st, cfg, id, s, now).sessions, Seat(st, cfg, id, s, now).leases)
  {
    hide Sharing, ReservationRows, Pins, Cohorts, Capacity, WaveOrder, LeaseFits, PinClaimed;
    var su := Seat(st, cfg, id, s, now);
    assert Booted(st.sessions[s]);
    SeatLeaseRow(st, cfg, id, s, now);
    SeatEffect(st, cfg, id, s, now);
    forall i | i in su.leases
      ensures LeaseRow(su.sessions, su.leases[i])
    {
      assert LeaseRow(st.sessions, st.leases[i]);
    }
  }

  lemma SeatSessionRows(st: Pool, cfg: Config, id: nat, s: nat, now: int)
    requires SessionRows(st.sessions) && id in st.leases && s in st.sessions
    ensures SessionRows(Seat(st, cfg, id, s, now).sessions)
  {
    SeatEffect(st, cfg, id, s, now);
    var su := Seat(st, cfg, id, s, now);
    forall t | t in su.sessions
      ensures Booted(su.sessions[t])
    {
      assert Booted(st.sessions[t]);
    }
  }

  lemma SeatSharing(safe: set<string>, st: Pool, cfg: Config, id: nat, s: nat, now: int)
    requires LeaseRows(st.sessions, st.leases) && Sharing(safe, st.leases) && Seatable(st, id, s)
    ensures Sharing(safe, Seat(st, cfg, id, s, now).leases)
  {
    var su := Seat(st, cfg, id, s, now);
    SeatEffect(st, cfg, id, s, now);
    assert LeaseRow(st.sessions, st.leases[id]);
    forall o | o in st.leases && Holder(st.leases[o], s)
      ensures Compatible(st.leases[id].req, st.leases[o].req)
      ensures st.leases[o].slot != su.leases[id].slot
    {
      assert st.leases[o].slot in OccupiedSlots(st.leases, s);
    }
    forall i, j | i in su.leases && j in su.leases && i != j
      ensures Neighbours(safe, su.leases[i], su.leases[j])
    {
      if i != id && j != id {
        assert Neighbours(safe, st.leases[i], st.leases[j]);
      }
    }
  }

  lemma SeatReservationRow(st: Pool, cfg: Config, id: nat, s: nat, now: int, r: nat)
    requires r in st.reservations && ReservationRow(st.sessions, st.leases, r, st.reservations[r]) && Seatable(st, id, s)
    ensures
      var su := Seat(st, cfg, id, s, now);
      r in su.reservations && ReservationRow(su.sessions, su.leases, r, su.reservations[r])
  {
    hide LeaseFits, Seat;
    SeatEffect(st, cfg, id, s, now);
  }

  lemma SeatReservationRows(st: Pool, cfg: Config, id: nat, s: nat, now: int)
    requires ReservationRows(st.sessions, st.leases, st.reservations) && Seatable(st, id, s)
    ensures var su := Seat(st, cfg, id, s, now);
            ReservationRows(su.sessions, su.leases, su.reservations)
  {
    hide LeaseFits, ReservationRow, Seat;
    var su := Seat(st, cfg, id, s, now);
    SeatEffect(st, cfg, id, s, now);
    forall r | r in su.reservations
      ensures ReservationRow(su.sessions, su.leases, r, su.reservations[r])
    {
      SeatReservationRow(st, cfg, id, s, now, r);
    }
  }

  lemma SeatPins(st: Pool, cfg: Config, id: nat, s: nat, now: int)
    requires Pins(st.leases, st.reservations) && Seatable(st, id, s)
    ensures var su := Seat(st, cfg, id, s, now); Pins(su.leases, su.reservations)
  {
    hide LeaseFits, PinClaimed;
    var su := Seat(st, cfg, id, s, now);
    SeatEffect(st, cfg, id, s, now);
    forall i | i in su.leases
      ensures PinnedLease(su.reservations, i, su.leases[i])
    {
      assert PinnedLease(st.reservations, i, st.leases[i]);
    }
  }

  lemma SeatCohorts(st: Pool, cfg: Config, id: nat, s: nat, now: int)
    requires Cohorts(st.reservations) && Seatable(st, id, s)
    ensures Cohorts(Seat(st, cfg, id, s, now).reservations)
  {
    hide LeaseFits;
    var su := Seat(st, cfg, id, s, now);
    SeatEffect(st, cfg, id, s, now);
    forall i, j | i in su.reservations && j in su.reservations && i != j
      ensures CohortPair(su.reservations[i], su.reservations[j])
    {
      assert CohortPair(st.reservations[i], st.reservations[j]);
    }
  }

  lemma SeatPinsSlot(st: Pool, cfg: Config, id: nat, s: nat, now: int, r: nat, t: nat)
    requires Seatable(st, id, s) && r in st.reservations
    requires ReservationRow(st.sessions, st.leases, r, st.reservations[r])
    requires st.leases[id].session.None?
    ensures PinsSlot(Seat(st, cfg, id, s, now).leases, Seat(st, cfg, id, s, now).reservations[r], t)
            <==> PinsSlot(st.leases, st.reservations[r], t)
  {
  }

  /** Seating adds one unpinned owner or turns a held slot into an occupied one. */
  lemma SeatPinnedSlots(st: Pool, cfg: Config, id: nat, s: nat, now: int, t: nat)
    requires ReservationRows(st.sessions, st.leases, st.reservations) && Seatable(st, id, s)
    requires st.leases[id].session.None?
    ensures var su := Seat(st, cfg, id, s, now);
            PinnedSlots(su.leases, su.reservations, t) == PinnedSlots(st.leases, st.reservations, t)
  {
    hide LeaseFits, PinClaimed, PinsSlot;
    var su := Seat(st, cfg, id, s, now);
    assert su.reservations.Keys == st.reservations.Keys;
    forall r | r in st.reservations
      ensures PinsSlot(su.leases, su.reservations[r], t) <==> PinsSlot(st.leases, st.reservations[r], t)
    {
      SeatPinsSlot(st, cfg, id, s, now, r, t);
    }
  }

  lemma SeatFreeHolders(st: Pool, cfg: Config, id: nat, s: nat, now: int, t: nat)
    requires Seatable(st, id, s)
    requires st.leases[id].session.None?
    ensures FreeHolders(Seat(st, cfg, id, s, now).leases, t) == FreeHolders(st.leases, t)
              + (if t == s && st.leases[id].req.pin == 0 then {id} else {})
  {
    hide LeaseFits, PinClaimed;
    SeatEffect(st, cfg, id, s, now);
  }

  lemma SeatCapacity(safe: set<string>, st: Pool, cfg: Config, id: nat, s: nat, now: int)
    requires Inv(safe, st) && Seatable(st, id, s)
    ensures var su := Seat(st, cfg, id, s, now);
            Capacity(su.sessions, su.leases, su.reservations)
  {
    var su := Seat(st, cfg, id, s, now);
    SeatEffect(st, cfg, id, s, now);
    forall t | t in su.sessions
      ensures Fits(su.sessions, su.leases, su.reservations, t)
    {
      assert Fits(st.sessions, st.leases, st.reservations, t);
      assert LeaseRow(st.sessions, st.leases[id]);
      SeatPinnedSlots(st, cfg, id, s, now, t);
      SeatFreeHolders(st, cfg, id, s, now, t);
      if t == s && st.leases[id].req.pin == 0 {
        SlotCount(safe, st, s);
      }
    }
  }

  lemma SeatWaveOrder(safe: set<string>, st: Pool, cfg: Config, id: nat, s: nat, now: int)
    requires WaveOrder(safe, st.sessions, st.leases) && Seatable(st, id, s)
    ensures var su := Seat(st, cfg, id, s, now); WaveOrder(safe, su.sessions, su.leases)
  {
    hide LeaseFits, PinClaimed, Seat, Ordered;
    var su := Seat(st, cfg, id, s, now);
    SeatEffect(st, cfg, id, s, now);
    if safe == {} {
      forall a, b, t | a in su.leases && b in su.leases && t in su.sessions
        ensures Ordered(su.sessions, t, a, su.leases[a], b, su.leases[b])
      {
        SeatOrdered(st, cfg, id, s, now, a, b, t);
      }
    }
  }

  lemma SeatOrdered(st: Pool, cfg: Config, id: nat, s: nat, now: int, a: nat, b: nat, t: nat)
    requires Seatable(st, id, s) && a in st.leases && b in st.leases && t in st.sessions
    requires Ordered(st.sessions, t, a, st.leases[a], b, st.leases[b])
    ensures
      var su := Seat(st, cfg, id, s, now);
      a in su.leases && b in su.leases && Ordered(su.sessions, t, a, su.leases[a], b, su.leases[b])
  {
    hide LeaseFits, PinClaimed, Seat;
    SeatEffect(st, cfg, id, s, now);
  }

  lemma SeatInv(safe: set<string>, st: Pool, cfg: Config, id: nat, s: nat, now: int)
    requires Inv(safe, st) && Seatable(st, id, s)
    ensures Inv(safe, Seat(st, cfg, id, s, now))
  {
    hide LeaseRows, Sharing, ReservationRows, Pins, Cohorts, Capacity, WaveOrder, SessionRows;
    SeatSessionRows(st, cfg, id, s, now);
    SeatLeaseRows(safe, st, cfg, id, s, now);
    SeatSharing(safe, st, cfg, id, s, now);
    SeatReservationRows(st, cfg, id, s, now);
    SeatPins(st, cfg, id, s, now);
    SeatCohorts(st, cfg, id, s, now);
    SeatCapacity(safe, st, cfg, id, s, now);
    SeatWaveOrder(safe, st, cfg, id, s, now);
    SeatKeys(st, cfg, id, s, now);
  }

  lemma SeatKeys(st: Pool, cfg: Config, id: nat, s: nat, now: int)
    requires id in st.leases && s in st.sessions
    ensures Seat(st, cfg, id, s, now).sessions.Keys == st.sessions.Keys
  {
  }

  lemma SeatWaves(st: Pool, cfg: Config, id: nat, s: nat, now: int)
    requires LeaseRows(st.sessions, st.leases) && Seatable(st, id, s)
    ensures WavesFrozen(st, Seat(st, cfg, id, s, now))
  {
    hide LeaseFits, PinClaimed;
    SeatEffect(st, cfg, id, s, now);
    assert LeaseRow(st.sessions, st.leases[id]);
  }

  lemma SeatEvolves(st: Pool, cfg: Config, id: nat, s: nat, now: int)
    requires LeaseRows(st.sessions, st.leases) && Seatable(st, id, s)
    ensures Evolves(st, Seat(st, cfg, id, s, now))
  {
    hide LeaseFits, LeaseRows, WavesFrozen, Seat;
    SeatWaves(st, cfg, id, s, now);
    SeatEffect(st, cfg, id, s, now);
  }

  lemma SeatOwned(st: Pool, cfg: Config, id: nat, s: nat, now: int)
    requires Seatable(st, id, s)
    ensures var su := Seat(st, cfg, id, s, now); Owned(st, su) && Quiet(NOTHING, st, su) && Arms(st, su)
  {
    hide LeaseFits, PinClaimed;
    SeatEffect(st, cfg, id, s, now);
  }

  lemma SeatLifecycle(st: Pool, cfg: Config, id: nat, s: nat, now: int)
    requires Seatable(st, id, s)
    ensures var su := Seat(st, cfg, id, s, now); Lifecycle(NOTHING, st, su) && Rests(NOTHING, st, su)
  {
    hide LeaseFits, PinClaimed;
    SeatEffect(st, cfg, id, s, now);
  }

  lemma SeatHolders(st: Pool, cfg: Config, id: nat, s: nat, now: int, t: nat)
    requires Seatable(st, id, s) && t != s
    ensures Holders(Seat(st, cfg, id, s, now).leases, t) <= Holders(st.leases, t)
    ensures Waiting(Seat(st, cfg, id, s, now).leases, t) <= Waiting(st.leases, t)
  {
    hide LeaseFits, PinClaimed;
    SeatEffect(st, cfg, id, s, now);
  }

  lemma SeatBatches(st: Pool, cfg: Config, id: nat, s: nat, now: int, t: nat)
    requires Seatable(st, id, s) && t in st.sessions
    ensures BatchClosed(st, Seat(st, cfg, id, s, now), t)
  {
    hide LeaseFits, Holders, Waiting;
    SeatEffect(st, cfg, id, s, now);
    if t != s {
      SeatHolders(st, cfg, id, s, now, t);
    }
  }

  lemma SeatAdmitsLease(st: Pool, cfg: Config, id: nat, s: nat, now: int, i: nat)
    requires Seatable(st, id, s) && i in st.leases && Seat(st, cfg, id, s, now).leases[i].state.Holds()
    ensures AdmissionKey(i, st.leases[i]) in AdmittedWithout(st, id) + {AdmissionKey(id, st.leases[id])}
  {
    hide LeaseFits, PinClaimed;
  }

  lemma SeatAdmitsHeld(st: Pool, cfg: Config, id: nat, s: nat, now: int, r: nat)
    requires Seatable(st, id, s) && r in st.reservations
    requires Seat(st, cfg, id, s, now).reservations[r].state.Held()
    ensures ForTask(st.reservations[r].task) in AdmittedWithout(st, id) + {AdmissionKey(id, st.leases[id])}
  {
    hide LeaseFits;
  }

  lemma SeatAdmits(st: Pool, cfg: Config, id: nat, s: nat, now: int)
    requires Seatable(st, id, s) && |AdmittedWithout(st, id)| < cfg.target
    ensures Admits(cfg.target, st, Seat(st, cfg, id, s, now))
  {
    hide LeaseFits, PinClaimed, AdmittedWithout;
    var su := Seat(st, cfg, id, s, now);
    SeatEffect(st, cfg, id, s, now);
    var key := AdmissionKey(id, st.leases[id]);
    forall k | k in Admitted(su.leases, su.reservations)
      ensures k in AdmittedWithout(st, id) + {key}
    {
      if i :| i in su.leases && su.leases[i].state.Holds() && k == AdmissionKey(i, su.leases[i]) {
        SeatAdmitsLease(st, cfg, id, s, now, i);
      } else {
        var r :| r in su.reservations && su.reservations[r].state.Held() && k == ForTask(su.reservations[r].task);
        SeatAdmitsHeld(st, cfg, id, s, now, r);
      }
    }
    Subset(Admitted(su.leases, su.reservations), AdmittedWithout(st, id) + {key});
  }

  lemma SeatBarrier(st: Pool, cfg: Config, id: nat, s: nat, now: int)
    requires LeaseRows(st.sessions, st.leases) && Seatable(st, id, s)
    ensures BarrierHolds({}, st, Seat(st, cfg, id, s, now))
    ensures Barred(st) ==> Barred(Seat(st, cfg, id, s, now))
  {
    hide LeaseFits, PinClaimed;
    var su := Seat(st, cfg, id, s, now);
    SeatEffect(st, cfg, id, s, now);
    forall t | t in st.sessions && st.sessions[t].blockedAt.Some?
      ensures Holders(su.leases, t) <= Holders(st.leases, t)
    {
      SeatHolders(st, cfg, id, s, now, t);
    }
    if Barred(st) {
      forall i | i in su.leases
        ensures BehindBarrier(su.sessions, su.leases[i])
      {
        assert BehindBarrier(st.sessions, st.leases[i]);
      }
    }
  }

  lemma SeatKept(safe: set<string>, st: Pool, cfg: Config, id: nat, s: nat, now: int)
    requires Inv(safe, st) && Seatable(st, id, s) && |AdmittedWithout(st, id)| < cfg.target
    ensures Kept(safe, cfg.target, NOTHING, st, Seat(st, cfg, id, s, now))
  {
    hide LeaseFits, PinClaimed, LeaseRows, Sharing, ReservationRows, Pins, Cohorts, Capacity, WaveOrder;
    hide Evolves, Owned, Quiet, Lifecycle, Rests, Arms, Admits, BarrierHolds, Barred, BatchClosed, SessionRows;
    SeatInv(safe, st, cfg, id, s, now);
    SeatEvolves(st, cfg, id, s, now);
    SeatOwned(st, cfg, id, s, now);
    SeatLifecycle(st, cfg, id, s, now);
    SeatAdmits(st, cfg, id, s, now);
    SeatBarrier(st, cfg, id, s, now);
    SeatKeys(st, cfg, id, s, now);
    forall t | t in st.sessions
      ensures BatchClosed(st, Seat(st, cfg, id, s, now), t)
    {
      SeatBatches(st, cfg, id, s, now, t);
    }
  }

  lemma PlaceOneKept(safe: set<string>, st: Pool, cfg: Config, id: nat, now: int)
    requires Inv(safe, st)
    ensures Kept(safe, cfg.target, NOTHING, st, PlaceOne(st, cfg, id, now))
  {
    if id in st.leases && MayPlace(st, cfg, id, now) && FittingSessions(st, cfg, id, now) != {} {
      var s := First(st.leases, FittingSessions(st, cfg, id, now));
      assert Seatable(st, id, s) by {
        hide Inv;
        SeatableFirst(safe, st, cfg, id, s, now);
      }
      hide Inv, Calm, Barred, Arms, Shrinks, Seatable, RefreshSessions, Seat;
      var su := Seat(st, cfg, id, s, now);
      SeatKept(safe, st, cfg, id, s, now);
      assert Inv(safe, su) && Registered(su, {s}) by { SeatRegistered(safe, st, cfg, id, s, now); }
      RefreshSessionsEbbs(safe, cfg.target, su, {s});
      KeptChain(safe, cfg.target, st, su, RefreshSessions(su, {s}));
    } else {
      hide Inv, Calm, Barred, Arms, Shrinks;
      EbbSelf(safe, cfg.target, st);
    }
  }

  lemma SeatRegistered(safe: set<string>, st: Pool, cfg: Config, id: nat, s: nat, now: int)
    requires Seatable(st, id, s)
    ensures Registered(Seat(st, cfg, id, s, now), {s})
  {
    hide LeaseFits, PinClaimed;
    SeatEffect(st, cfg, id, s, now);
  }

  lemma SeatableFirst(safe: set<string>, st: Pool, cfg: Config, id: nat, s: nat, now: int)
    requires Inv(safe, st) && id in st.leases && MayPlace(st, cfg, id, now)
    requires s in FittingSessions(st, cfg, id, now)
    ensures Seatable(st, id, s)
  {
    hide LeaseRows, Sharing, ReservationRows, Pins, Cohorts, Capacity, WaveOrder;
    if st.leases[id].req.pin != 0 {
      PinTarget(st.sessions, st.leases, st.reservations, id);
    }
  }

  lemma {:induction false} PlaceEachKept(safe: set<string>, st: Pool, cfg: Config, ids: seq<nat>, now: int)
    requires Inv(safe, st)
    ensures Kept(safe, cfg.target, NOTHING, st, PlaceEach(st, cfg, ids, now))
    decreases |ids|
  {
    hide Inv, Calm, Barred, Arms, Shrinks, PlaceOne;
    if ids == [] {
      EbbSelf(safe, cfg.target, st);
    } else {
      var su := PlaceOne(st, cfg, ids[0], now);
      PlaceOneKept(safe, st, cfg, ids[0], now);
      PlaceEachKept(safe, su, cfg, ids[1..], now);
      KeptChain(safe, cfg.target, st, su, PlaceEach(su, cfg, ids[1..], now));
    }
  }
}
