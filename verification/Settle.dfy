/** The moves that give up ownership or advance it in place. Almost every
    transaction is a sequence of them; none lets a lease into a Desktop. */
module PoolSettle {
  import opened PoolRows
  import opened PoolInvariant

  predicate SamePlace(l: Lease, m: Lease) {
    m.session == l.session && m.slot == l.slot && m.permit == l.permit && m.marker == l.marker
  }

  /** The lease marks its native pipeline complete for the permit it holds. */
  predicate Completes(l: Lease, m: Lease) {
    && m.session == l.session && m.slot == l.slot && m.permit == l.permit
    && l.session.Some? && l.permit.Some? && m.marker == Some(Marker(l.session.value, l.permit.value))
  }

  /** `gone` says that the Desktop the lease was on is over after the move. */
  predicate LeaseMove(l: Lease, m: Lease, gone: bool) {
    && m.req == l.req
    && (
      || (SamePlace(l, m) && m.state == l.state)
      || (l.state.Active? && m.state.Active? && Completes(l, m))
      || (SamePlace(l, m) && l.state.Offered? && m.state.Attaching?)
      || (SamePlace(l, m) && (l.state.Attaching? || l.state.Leased?) && m.state.Active?)
      || (SamePlace(l, m) && m.state.Releasing?
          && (l.state.Leased? || l.state.Attaching? || l.state.Active?))
      || (SamePlace(l, m) && l.state.Live() && m.state.Failed?)
      || (SamePlace(l, m) && l.state.Releasing? && m.state.Released?)
      || (SamePlace(l, m) && (l.state.Queued? || l.state.Offered? || l.state.Leased?) && m.state.Expired?)
      || ((l.state.Queued? || l.state.Offered? || l.state.Leased?)
          && (m.state.Cancelled? || m.state.Expired?)
          && m.session.None? && m.permit == l.permit && m.marker == l.marker)
      || (l.state.Holds() && m.state.Queued?
          && m.session.None? && m.permit.None? && m.marker == l.marker
          && (l.state.Offered? || (gone && l.req.pin == 0)))
    )
  }

  predicate ReservationMove(r: Reservation, q: Reservation, requeued: bool) {
    && q.(state := r.state) == r
    && (
      || (q.state == r.state && !(r.state.Consumed? && requeued))
      || (r.state.Live() && !q.state.Live())
      || (r.state.Consumed? && q.state.Claimed? && requeued)
    )
  }

  /** `empty` says that no lease occupies the Desktop after the move. */
  predicate SessionMove(x: Session, y: Session, empty: bool) {
    && y.slots == x.slots && y.generation == x.generation
    && y.allocation == x.allocation && y.wave == x.wave
    && (Booted(x) ==> Booted(y)) && (x.started.Some? ==> y.started.Some?)
    && (x.state.Over() ==> y.state.Over())
    && (y.state.Starting? ==> x.state.Starting?)
    && (y.state.Over() ==> x.state.Over() || empty)
    && (y.isSealed ==> x.isSealed)
    && (x.isSealed && !y.isSealed ==> empty)
  }

  predicate Gone(ss: Sessions, l: Lease) {
    l.session.Some? && l.session.value in ss && ss[l.session.value].state.Over()
  }

  predicate Requeued(ls: Leases, ms: Leases, id: Option<nat>) {
    id.Some? && id.value in ls && id.value in ms
    && ls[id.value].state.Offered? && ms[id.value].state.Queued?
  }

  ghost predicate LeasesSettle(ls: Leases, ms: Leases, ts: Sessions) {
    ms.Keys == ls.Keys && forall id :: id in ls ==> LeaseMove(ls[id], ms[id], Gone(ts, ls[id]))
  }

  ghost predicate ReservationsSettle(rs: Reservations, qs: Reservations, ls: Leases, ms: Leases) {
    qs.Keys == rs.Keys &&
    forall r :: r in rs ==> ReservationMove(rs[r], qs[r], Requeued(ls, ms, rs[r].lease))
  }

  ghost predicate SessionsSettle(ss: Sessions, ts: Sessions, ms: Leases) {
    ts.Keys == ss.Keys && forall s :: s in ss ==> SessionMove(ss[s], ts[s], NoHolder(ms, s))
  }

  ghost predicate Settles(st: Pool, su: Pool) {
    && LeasesSettle(st.leases, su.leases, su.sessions)
    && ReservationsSettle(st.reservations, su.reservations, st.leases, su.leases)
    && SessionsSettle(st.sessions, su.sessions, su.leases)
  }

  lemma SettleSessionRows(ss: Sessions, ts: Sessions, ms: Leases)
    requires SessionRows(ss) && SessionsSettle(ss, ts, ms)
    ensures SessionRows(ts)
  {
    forall s | s in ts
      ensures Booted(ts[s])
    {
      assert Booted(ss[s]) && SessionMove(ss[s], ts[s], NoHolder(ms, s));
    }
  }

  /** What the Desktop of one moving lease does. */
  predicate DesktopMoves(ss: Sessions, ts: Sessions, l: Lease, m: Lease) {
    && ts.Keys == ss.Keys
    && (l.session.Some? && l.session.value in ss ==>
          SessionMove(ss[l.session.value], ts[l.session.value], !m.state.Holds() || m.session != l.session))
  }

  lemma MoveRooted(ss: Sessions, ts: Sessions, l: Lease, m: Lease)
    requires Rooted(ss, l) && DesktopMoves(ss, ts, l, m) && LeaseMove(l, m, Gone(ts, l))
    ensures Rooted(ts, m)
  {
  }

  lemma MoveSeated(ss: Sessions, ts: Sessions, l: Lease, m: Lease)
    requires Rooted(ss, l) && Seated(ss, l) && DesktopMoves(ss, ts, l, m) && LeaseMove(l, m, Gone(ts, l))
    ensures Seated(ts, m)
  {
  }

  lemma MovePermitted(ss: Sessions, ts: Sessions, l: Lease, m: Lease)
    requires Seated(ss, l) && Permitted(ss, l) && DesktopMoves(ss, ts, l, m) && LeaseMove(l, m, Gone(ts, l))
    ensures Permitted(ts, m)
  {
  }

  lemma MoveSettled(ss: Sessions, ts: Sessions, l: Lease, m: Lease)
    requires Seated(ss, l) && Settled(ss, l) && DesktopMoves(ss, ts, l, m) && LeaseMove(l, m, Gone(ts, l))
    ensures Settled(ts, m)
  {
  }

  lemma MoveMarked(ss: Sessions, ts: Sessions, l: Lease, m: Lease)
    requires Permitted(ss, l) && Marked(ss, l) && Seated(ss, l) && ts.Keys == ss.Keys && LeaseMove(l, m, Gone(ts, l))
    requires forall s :: s in ss && ss[s].state.Over() ==> ts[s].state.Over()
    ensures Marked(ts, m)
  {
  }

  /** The Desktop of a lease that still holds it after the move is not empty. */
  lemma MovedDesktop(ss: Sessions, ls: Leases, ts: Sessions, ms: Leases, id: nat)
    requires LeasesSettle(ls, ms, ts) && SessionsSettle(ss, ts, ms) && id in ls
    ensures DesktopMoves(ss, ts, ls[id], ms[id])
  {
    hide LeaseMove;
    if ls[id].session.Some? && ls[id].session.value in ss {
      var s := ls[id].session.value;
      assert SessionMove(ss[s], ts[s], NoHolder(ms, s));
      if ms[id].state.Holds() && ms[id].session == Some(s) {
        assert Holder(ms[id], s) && !NoHolder(ms, s);
      }
    }
  }

  lemma SettleLeaseRow(ss: Sessions, ls: Leases, ts: Sessions, ms: Leases, id: nat)
    requires id in ls && LeaseRow(ss, ls[id]) && LeasesSettle(ls, ms, ts) && SessionsSettle(ss, ts, ms)
    ensures LeaseRow(ts, ms[id])
  {
    MovedDesktop(ss, ls, ts, ms, id);
    assert LeaseMove(ls[id], ms[id], Gone(ts, ls[id]));
    assert forall s :: s in ss ==> SessionMove(ss[s], ts[s], NoHolder(ms, s));
    MoveRooted(ss, ts, ls[id], ms[id]);
    MoveSeated(ss, ts, ls[id], ms[id]);
    MovePermitted(ss, ts, ls[id], ms[id]);
    MoveSettled(ss, ts, ls[id], ms[id]);
    assert forall s :: s in ss && ss[s].state.Over() ==> ts[s].state.Over();
    MoveMarked(ss, ts, ls[id], ms[id]);
    hide Rooted, Seated, Permitted, Settled, Marked;
  }

  lemma SettleLeaseRows(ss: Sessions, ls: Leases, ts: Sessions, ms: Leases)
    requires LeaseRows(ss, ls) && LeasesSettle(ls, ms, ts) && SessionsSettle(ss, ts, ms)
    ensures LeaseRows(ts, ms)
  {
    hide LeaseRow, LeaseMove, SessionMove, SessionsSettle;
    forall id | id in ms
      ensures LeaseRow(ts, ms[id])
    {
      SettleLeaseRow(ss, ls, ts, ms, id);
    }
  }

  lemma SettleSharing(safe: set<string>, ls: Leases, ms: Leases, ts: Sessions)
    requires Sharing(safe, ls) && LeasesSettle(ls, ms, ts)
    ensures Sharing(safe, ms)
  {
    forall i, j | i in ms && j in ms && i != j
      ensures Neighbours(safe, ms[i], ms[j])
    {
      assert Neighbours(safe, ls[i], ls[j]);
    }
  }

  lemma SettleReservationRow(ss: Sessions, ls: Leases, ts: Sessions, ms: Leases,
                             rid: nat, r: Reservation, q: Reservation)
    requires ReservationRow(ss, ls, rid, r)
    requires ReservationMove(r, q, Requeued(ls, ms, r.lease))
    requires r.session in ts && SessionMove(ss[r.session], ts[r.session], NoHolder(ms, r.session))
    requires r.lease.Some? ==> r.lease.value in ms && LeaseRow(ss, ls[r.lease.value])
    requires r.lease.Some? ==> LeaseMove(ls[r.lease.value], ms[r.lease.value], Gone(ts, ls[r.lease.value]))
    ensures ReservationRow(ts, ms, rid, q)
  {
  }

  lemma SettleReservationRows(st: Pool, su: Pool)
    requires ReservationRows(st.sessions, st.leases, st.reservations) && Settles(st, su)
    requires LeaseRows(st.sessions, st.leases)
    ensures ReservationRows(su.sessions, su.leases, su.reservations)
  {
    forall r | r in su.reservations
      ensures ReservationRow(su.sessions, su.leases, r, su.reservations[r])
    {
      assert ReservationRow(st.sessions, st.leases, r, st.reservations[r]);
      SettleReservationRow(st.sessions, st.leases, su.sessions, su.leases,
                           r, st.reservations[r], su.reservations[r]);
    }
  }

  lemma SettlePinsSlot(ss: Sessions, ls: Leases, ts: Sessions, ms: Leases,
                       rid: nat, r: Reservation, q: Reservation, s: nat)
    requires ReservationRow(ss, ls, rid, r)
    requires ReservationMove(r, q, Requeued(ls, ms, r.lease))
    requires r.lease.Some? ==> r.lease.value in ms && LeaseRow(ss, ls[r.lease.value])
    requires r.lease.Some? ==> LeaseMove(ls[r.lease.value], ms[r.lease.value], Gone(ts, ls[r.lease.value]))
    requires PinsSlot(ms, q, s)
    ensures PinsSlot(ls, r, s)
  {
  }

  lemma SettlePinnedSlots(st: Pool, su: Pool, s: nat)
    requires ReservationRows(st.sessions, st.leases, st.reservations) && Settles(st, su)
    requires LeaseRows(st.sessions, st.leases)
    ensures PinnedSlots(su.leases, su.reservations, s) <= PinnedSlots(st.leases, st.reservations, s)
  {
    forall r | r in PinnedSlots(su.leases, su.reservations, s)
      ensures r in PinnedSlots(st.leases, st.reservations, s)
    {
      assert ReservationRow(st.sessions, st.leases, r, st.reservations[r]);
      SettlePinsSlot(st.sessions, st.leases, su.sessions, su.leases,
                     r, st.reservations[r], su.reservations[r], s);
    }
  }

  lemma SettleHolders(ls: Leases, ms: Leases, ts: Sessions, s: nat)
    requires LeasesSettle(ls, ms, ts)
    ensures Holders(ms, s) <= Holders(ls, s)
    ensures FreeHolders(ms, s) <= FreeHolders(ls, s)
  {
    forall id | id in ms && Holder(ms[id], s)
      ensures Holder(ls[id], s)
    {
      assert LeaseMove(ls[id], ms[id], Gone(ts, ls[id]));
    }
  }

  lemma SettleCapacity(st: Pool, su: Pool)
    requires Capacity(st.sessions, st.leases, st.reservations) && Settles(st, su)
    requires ReservationRows(st.sessions, st.leases, st.reservations)
    requires LeaseRows(st.sessions, st.leases)
    ensures Capacity(su.sessions, su.leases, su.reservations)
  {
    forall s | s in su.sessions
      ensures Fits(su.sessions, su.leases, su.reservations, s)
    {
      assert Fits(st.sessions, st.leases, st.reservations, s);
      assert SessionMove(st.sessions[s], su.sessions[s], NoHolder(su.leases, s));
      SettleHolders(st.leases, su.leases, su.sessions, s);
      SettlePinnedSlots(st, su, s);
      Subset(FreeHolders(su.leases, s), FreeHolders(st.leases, s));
      Subset(PinnedSlots(su.leases, su.reservations, s), PinnedSlots(st.leases, st.reservations, s));
    }
  }

  lemma Subset<T>(a: set<T>, b: set<T>)
    requires a <= b
    ensures |a| <= |b|
  {
    assert b == a + (b - a);
  }

  lemma SettleOrdered(ss: Sessions, ts: Sessions, ms: Leases, s: nat,
                      a: nat, la: Lease, ma: Lease, b: nat, lb: Lease, mb: Lease)
    requires s in ss && s in ts && SessionMove(ss[s], ts[s], NoHolder(ms, s))
    requires LeaseRow(ss, la) && LeaseMove(la, ma, Gone(ts, la))
    requires LeaseRow(ss, lb) && LeaseMove(lb, mb, Gone(ts, lb))
    requires Ordered(ss, s, a, la, b, lb)
    ensures Ordered(ts, s, a, ma, b, mb)
  {
  }

  lemma SettleWaveOrder(safe: set<string>, ss: Sessions, ls: Leases, ts: Sessions, ms: Leases)
    requires WaveOrder(safe, ss, ls) && LeasesSettle(ls, ms, ts) && SessionsSettle(ss, ts, ms)
    requires LeaseRows(ss, ls)
    ensures WaveOrder(safe, ts, ms)
  {
    if safe == {} {
      forall a, b, s | a in ms && b in ms && s in ts
        ensures Ordered(ts, s, a, ms[a], b, ms[b])
      {
        SettleOrdered(ss, ts, ms, s, a, ls[a], ms[a], b, ls[b], ms[b]);
      }
    }
  }

  lemma SettlePins(ls: Leases, ms: Leases, ts: Sessions, rs: Reservations, qs: Reservations)
    requires Pins(ls, rs) && LeasesSettle(ls, ms, ts) && ReservationsSettle(rs, qs, ls, ms)
    ensures Pins(ms, qs)
  {
    forall id | id in ms
      ensures PinnedLease(qs, id, ms[id])
    {
      assert PinnedLease(rs, id, ls[id]) && LeaseMove(ls[id], ms[id], Gone(ts, ls[id]));
    }
  }

  lemma SettleCohorts(rs: Reservations, qs: Reservations, ls: Leases, ms: Leases)
    requires Cohorts(rs) && ReservationsSettle(rs, qs, ls, ms)
    ensures Cohorts(qs)
  {
    forall i, j | i in qs && j in qs && i != j
      ensures CohortPair(qs[i], qs[j])
    {
      assert CohortPair(rs[i], rs[j]);
    }
  }

  /** Every settling move keeps the whole invariant. */
  lemma SettleKeepsInv(safe: set<string>, st: Pool, su: Pool)
    requires Inv(safe, st) && Settles(st, su)
    ensures Inv(safe, su)
  {
    SettleSessionRows(st.sessions, su.sessions, su.leases);
    SettleLeaseRows(st.sessions, st.leases, su.sessions, su.leases);
    SettleSharing(safe, st.leases, su.leases, su.sessions);
    SettleReservationRows(st, su);
    SettleCapacity(st, su);
    SettleWaveOrder(safe, st.sessions, st.leases, su.sessions, su.leases);
    SettlePins(st.leases, su.leases, su.sessions, st.reservations, su.reservations);
    SettleCohorts(st.reservations, su.reservations, st.leases, su.leases);
  }
}
