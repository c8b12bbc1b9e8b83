/** What every reachable database state satisfies. */
module PoolInvariant {
  import opened PoolRows

  /** Two leases may share one Desktop. */
  predicate Compatible(a: Request, b: Request) {
    && !a.exclusive && !b.exclusive
    && (a.protocol >= 2 <==> b.protocol >= 2)
    && (a.protocol < 2 ==> a.group == b.group)
    && (a.protocol >= 2 ==>
          && a.profile == b.profile
          && ((a.policy.Family? && b.policy.Family? && a.family == b.family)
              || (a.policy.SharedIfCompatible? && b.policy.SharedIfCompatible?)))
  }

  /** A Desktop without a start time was never registered: it has no host token, and it
      starts, is over, or timed out before its host answered. */
  predicate Booted(x: Session) {
    && (x.started.None? ==>
          x.token == "" && (x.state.Starting? || x.state.Over() || (x.state.Unhealthy? && x.fault.StartAckTimeout?)))
    && (x.state.Starting? ==> x.started.None?)
  }

  ghost predicate SessionRows(ss: Sessions) {
    0 !in ss && forall s :: s in ss ==> Booted(ss[s])
  }

  /** A lease names only a Desktop that was registered once. */
  predicate Rooted(ss: Sessions, l: Lease) {
    l.session.Some? ==> l.session.value in ss && !ss[l.session.value].state.Starting?
  }

  /** A lease that occupies a slot names a live Desktop and a slot index in range. */
  predicate Seated(ss: Sessions, l: Lease) {
    && (l.state.Holds() ==>
          && l.session.Some? && l.session.value in ss
          && ss[l.session.value].started.Some?
          && !ss[l.session.value].state.Starting? && !ss[l.session.value].state.Over()
          && l.slot < ss[l.session.value].slots
          && (l.req.pin != 0 ==> l.session.value == l.req.pinSession))
    && (l.state.Queued? ==> l.session.None?)
  }

  /** A permit belongs to one wave of one Desktop; a live one to its current wave,
      and only while the Desktop is sealed. */
  predicate Permitted(ss: Sessions, l: Lease) {
    l.permit.Some? ==>
      && l.session.Some? && l.session.value in ss
      && (l.state.Active? || l.state.Releasing? || l.state.Terminal())
      && l.permit.value <= ss[l.session.value].wave
      && (l.state.Holds() ==>
            ss[l.session.value].isSealed && l.permit.value == ss[l.session.value].wave)
  }

  /** A completion marker was written for the permit the lease still shows, or
      for a Desktop that is over. */
  predicate Marked(ss: Sessions, l: Lease) {
    l.marker.Some? ==>
      var m := l.marker.value;
      m.session in ss &&
      (ss[m.session].state.Over() || (l.session == Some(m.session) && l.permit == Some(m.wave)))
  }

  /** No member of a sealed batch is still on its way in. */
  predicate Settled(ss: Sessions, l: Lease) {
    l.state.Holds() && l.session.Some? && l.session.value in ss && ss[l.session.value].isSealed ==>
      l.state.Active? || l.state.Releasing?
  }

  predicate LeaseRow(ss: Sessions, l: Lease) {
    && Rooted(ss, l) && Seated(ss, l) && Permitted(ss, l) && Marked(ss, l) && Settled(ss, l)
    && (l.req.policy.Exclusive? ==> l.req.exclusive)
    && (l.req.pin != 0 ==> l.req.task != 0)
  }

  ghost predicate LeaseRows(ss: Sessions, ls: Leases) {
    forall id :: id in ls ==> LeaseRow(ss, ls[id])
  }

  predicate OneDesktop(a: Lease, b: Lease) {
    a.state.Holds() && b.state.Holds() && a.session == b.session
  }

  /** Two owners of one Desktop have different slots and may share it; two permit
      holders belong to one family whose native solves may overlap. */
  predicate Neighbours(safe: set<string>, a: Lease, b: Lease) {
    OneDesktop(a, b) ==>
      && a.slot != b.slot
      && Compatible(a.req, b.req)
      && (a.permit.Some? && b.permit.Some? ==>
            a.req.family == b.req.family && a.req.family in safe)
  }

  ghost predicate Sharing(safe: set<string>, ls: Leases) {
    forall i, j :: i in ls && j in ls && i != j ==> Neighbours(safe, ls[i], ls[j])
  }

  /** A reservation and the lease it was claimed by name each other. */
  predicate ReservationRow(ss: Sessions, ls: Leases, rid: nat, r: Reservation) {
    && rid != 0 && r.task != 0
    && r.session in ss && !ss[r.session].state.Starting?
    && (r.state.Reserved? ==> r.lease.None?)
    && (r.state.Claimed? || r.state.Consumed? ==> r.lease.Some?)
    && (r.lease.Some? ==>
          && r.lease.value in ls
          && var q := ls[r.lease.value].req;
             q.pin == rid && q.task == r.task
             && q.pinSession == r.session && q.pinGeneration == r.generation)
    && (r.state.Claimed? ==> !ls[r.lease.value].state.Holds())
    && (r.state.Consumed? ==> !ls[r.lease.value].state.Queued?)
    && (r.state.Live() && ss[r.session].isSealed ==> r.state.Consumed?)
  }

  ghost predicate ReservationRows(ss: Sessions, ls: Leases, rs: Reservations) {
    0 !in rs && forall rid :: rid in rs ==> ReservationRow(ss, ls, rid, rs[rid])
  }

  predicate PinnedLease(rs: Reservations, id: nat, l: Lease) {
    l.req.pin != 0 ==> l.req.pin in rs && rs[l.req.pin].lease == Some(id)
  }

  ghost predicate Pins(ls: Leases, rs: Reservations) {
    forall id :: id in ls ==> PinnedLease(rs, id, ls[id])
  }

  /** Two reservations of one cohort; two live automatic ones on one Desktop
      generation; two live ones of one task. */
  predicate CohortPair(a: Reservation, b: Reservation) {
    && (a.key == b.key ==>
          a.session == b.session && a.generation == b.generation && a.expires == b.expires)
    && ((a.state.Live() && b.state.Live() && a.key.Auto? && b.key.Auto?
         && a.session == b.session && a.generation == b.generation) ==> a.key == b.key)
    && (a.state.Live() && b.state.Live() ==> a.task != b.task)
  }

  ghost predicate Cohorts(rs: Reservations) {
    forall i, j :: i in rs && j in rs && i != j ==> CohortPair(rs[i], rs[j])
  }

  // ----- slot conservation -----

  /** Unpinned slot owners of `s`. */
  function FreeHolders(ls: Leases, s: nat): set<nat> {
    set id | id in ls && Holder(ls[id], s) && ls[id].req.pin == 0
  }

  /** The reservation stands for one slot of `s`: still held, or occupied by its lease. */
  predicate PinsSlot(ls: Leases, r: Reservation, s: nat) {
    r.session == s &&
    (r.state.Held() || (r.lease.Some? && r.lease.value in ls && Holder(ls[r.lease.value], s)))
  }

  function PinnedSlots(ls: Leases, rs: Reservations, s: nat): set<nat> {
    set r | r in rs && PinsSlot(ls, rs[r], s)
  }

  predicate Fits(ss: Sessions, ls: Leases, rs: Reservations, s: nat)
    requires s in ss
  {
    |FreeHolders(ls, s)| + |PinnedSlots(ls, rs, s)| <= ss[s].slots
  }

  ghost predicate Capacity(ss: Sessions, ls: Leases, rs: Reservations) {
    forall s :: s in ss ==> Fits(ss, ls, rs, s)
  }

  /** With no family allowed to overlap, the current wave precedes every waiting lease. */
  predicate Ordered(ss: Sessions, s: nat, a: nat, la: Lease, b: nat, lb: Lease) {
    (s in ss && ss[s].isSealed
     && la.session == Some(s) && la.permit == Some(ss[s].wave)
     && lb.session == Some(s) && lb.state.Active? && lb.permit.None?) ==> a < b
  }

  ghost predicate WaveOrder(safe: set<string>, ss: Sessions, ls: Leases) {
    safe == {} ==>
      forall a, b, s :: a in ls && b in ls && s in ss ==> Ordered(ss, s, a, ls[a], b, ls[b])
  }

  ghost predicate Inv(safe: set<string>, st: Pool) {
    && SessionRows(st.sessions)
    && LeaseRows(st.sessions, st.leases)
    && Sharing(safe, st.leases)
    && ReservationRows(st.sessions, st.leases, st.reservations)
    && Pins(st.leases, st.reservations)
    && Cohorts(st.reservations)
    && Capacity(st.sessions, st.leases, st.reservations)
    && WaveOrder(safe, st.sessions, st.leases)
  }
}
