/** Members of one reservation cohort share one fate until their solve permits. */
module PoolFateSharing {
  import opened PoolRows
  import opened PoolRefresh

  /** Nothing of the cohort is left to hold up its Desktop: every reservation is over
      or belongs to a permitted lease, and no member solves or attaches without a permit. */
  ghost predicate Ended(st: Pool, key: CohortKey) {
    && (forall q :: q in st.reservations && st.reservations[q].key == key ==>
          !st.reservations[q].state.Live() || HasPermit(st.leases, st.reservations[q].lease))
    && (forall id :: id in st.leases && InCohort(st.reservations, st.leases[id], {key}) ==>
          (st.leases[id].state.Attaching? || st.leases[id].state.Active? ==> st.leases[id].permit.Some?))
  }

  /** Reservations only end, leases only stop, permits and keys stay. */
  predicate LeaseFades(l: Lease, m: Lease) {
    m.req == l.req && m.permit == l.permit && (m.state.Attaching? || m.state.Active? ==> m.state == l.state)
  }

  predicate ReservationFades(r: Reservation, q: Reservation) {
    q.key == r.key && q.lease == r.lease && (q.state.Live() ==> r.state.Live())
  }

  ghost predicate Fades(st: Pool, su: Pool) {
    && su.leases.Keys == st.leases.Keys && su.reservations.Keys == st.reservations.Keys
    && (forall id :: id in st.leases ==> LeaseFades(st.leases[id], su.leases[id]))
    && (forall r :: r in st.reservations ==> ReservationFades(st.reservations[r], su.reservations[r]))
  }

  lemma FadesTransitive(st: Pool, su: Pool, sv: Pool)
    requires Fades(st, su) && Fades(su, sv)
    ensures Fades(st, sv)
  {
    forall id | id in st.leases
      ensures LeaseFades(st.leases[id], sv.leases[id])
    {
      assert LeaseFades(st.leases[id], su.leases[id]) && LeaseFades(su.leases[id], sv.leases[id]);
    }
    forall r | r in st.reservations
      ensures ReservationFades(st.reservations[r], sv.reservations[r])
    {
      assert ReservationFades(st.reservations[r], su.reservations[r]);
      assert ReservationFades(su.reservations[r], sv.reservations[r]);
    }
  }

  /** What has ended stays ended while the pool only fades. */
  lemma EndedLasts(st: Pool, su: Pool, key: CohortKey)
    requires Ended(st, key) && Fades(st, su)
    ensures Ended(su, key)
  {
    forall q | q in su.reservations && su.reservations[q].key == key
      ensures !su.reservations[q].state.Live() || HasPermit(su.leases, su.reservations[q].lease)
    {
      assert ReservationFades(st.reservations[q], su.reservations[q]);
      var lease := st.reservations[q].lease;
      if lease.Some? && lease.value in st.leases {
        assert LeaseFades(st.leases[lease.value], su.leases[lease.value]);
      }
    }
    forall id | id in su.leases && InCohort(su.reservations, su.leases[id], {key})
      ensures su.leases[id].state.Attaching? || su.leases[id].state.Active? ==> su.leases[id].permit.Some?
    {
      assert LeaseFades(st.leases[id], su.leases[id]);
      var pin := st.leases[id].req.pin;
      assert ReservationFades(st.reservations[pin], su.reservations[pin]);
      assert InCohort(st.reservations, st.leases[id], {key});
    }
  }

  lemma SettleOwnersFades(st: Pool, keys: set<CohortKey>, now: int)
    ensures Fades(st, FailCohorts(st, keys, true, now))
  {
    hide InCohort, SessionsOf;
  }

  lemma SettleOwnersEnds(st: Pool, keys: set<CohortKey>, now: int, key: CohortKey)
    requires key in keys
    ensures Ended(FailCohorts(st, keys, true, now), key)
  {
    var su := FailCohorts(st, keys, true, now);
    SettleOwnersFades(st, keys, now);
    forall id | id in su.leases && InCohort(su.reservations, su.leases[id], {key})
      ensures !su.leases[id].state.Attaching? && !su.leases[id].state.Active?
    {
      assert LeaseFades(st.leases[id], su.leases[id]);
      var pin := st.leases[id].req.pin;
      assert ReservationFades(st.reservations[pin], su.reservations[pin]);
      assert id in CohortLeases(st, keys);
    }
    forall q | q in su.reservations && su.reservations[q].key == key
      ensures !su.reservations[q].state.Live()
    {
      assert ReservationFades(st.reservations[q], su.reservations[q]);
      assert q in CohortReservations(st, keys);
    }
  }

  lemma ExpireFades(st: Pool, keys: set<CohortKey>, now: int)
    ensures Fades(st, ExpireCohorts(st, keys, now))
  {
    hide InCohort, SessionsOf, HasPermit;
  }

  lemma ExpireEnds(st: Pool, keys: set<CohortKey>, now: int, key: CohortKey)
    requires key in keys
    ensures Ended(ExpireCohorts(st, keys, now), key)
  {
    var su := ExpireCohorts(st, keys, now);
    ExpireFades(st, keys, now);
    forall id | id in su.leases && InCohort(su.reservations, su.leases[id], {key})
      ensures su.leases[id].state.Attaching? || su.leases[id].state.Active? ==> su.leases[id].permit.Some?
    {
      assert LeaseFades(st.leases[id], su.leases[id]);
      var pin := st.leases[id].req.pin;
      assert ReservationFades(st.reservations[pin], su.reservations[pin]);
      assert id in CohortLeases(st, keys);
    }
    forall q | q in su.reservations && su.reservations[q].key == key
      ensures !su.reservations[q].state.Live() || HasPermit(su.leases, su.reservations[q].lease)
    {
      assert ReservationFades(st.reservations[q], su.reservations[q]);
      assert q in CohortReservations(st, keys);
      var lease := st.reservations[q].lease;
      if lease.Some? && lease.value in st.leases {
        assert LeaseFades(st.leases[lease.value], su.leases[lease.value]);
      }
    }
  }

  lemma ReleaseFinishedFades(st: Pool)
    ensures Fades(st, ReleaseFinished(st))
  {
    hide TaskOver, LeaseOver;
  }

  lemma FailInvalidFades(st: Pool, now: int)
    ensures Fades(st, FailInvalidTargets(st, now))
  {
    hide InvalidKeys, InCohort, Refreshed;
  }

  /** The rest of a refresh only fades. */
  lemma RestFades(st: Pool, now: int)
    ensures Fades(st, FailInvalidTargets(ReleaseFinished(st), now))
  {
    hide Fades, FailInvalidTargets, ReleaseFinished;
    ReleaseFinishedFades(st);
    FailInvalidFades(ReleaseFinished(st), now);
    FadesTransitive(st, ReleaseFinished(st), FailInvalidTargets(ReleaseFinished(st), now));
  }

  lemma RefreshEndsSiblings(st: Pool, now: int, key: CohortKey)
    requires key in TerminalSiblingKeys(st)
    ensures Ended(RefreshReservations(st, now), key)
  {
    hide Ended, Fades, FailCohorts, ExpireCohorts, FailInvalidTargets, ReleaseFinished, TerminalSiblingKeys, ExpiredKeys;
    var s1 := FailCohorts(st, TerminalSiblingKeys(st), true, now);
    SettleOwnersEnds(st, TerminalSiblingKeys(st), now, key);
    var s2 := ExpireCohorts(s1, ExpiredKeys(s1, now), now);
    ExpireFades(s1, ExpiredKeys(s1, now), now);
    EndedLasts(s1, s2, key);
    RestFades(s2, now);
    EndedLasts(s2, RefreshReservations(st, now), key);
  }

  lemma RefreshEndsExpired(st: Pool, now: int, key: CohortKey)
    requires key in ExpiredKeys(FailCohorts(st, TerminalSiblingKeys(st), true, now), now)
    ensures Ended(RefreshReservations(st, now), key)
  {
    hide Ended, Fades, FailCohorts, ExpireCohorts, FailInvalidTargets, ReleaseFinished, TerminalSiblingKeys, ExpiredKeys;
    var s1 := FailCohorts(st, TerminalSiblingKeys(st), true, now);
    var s2 := ExpireCohorts(s1, ExpiredKeys(s1, now), now);
    ExpireEnds(s1, ExpiredKeys(s1, now), now, key);
    RestFades(s2, now);
    EndedLasts(s2, RefreshReservations(st, now), key);
  }

  /** A cohort that the sibling phase leaves alone still expires. */
  lemma StillExpired(st: Pool, keys: set<CohortKey>, now: int, r: nat)
    requires r in st.reservations && CohortExpired(st, r, now) && st.reservations[r].key !in keys
    ensures st.reservations[r].key in ExpiredKeys(FailCohorts(st, keys, true, now), now)
  {
    var su := FailCohorts(st, keys, true, now);
    SettleOwnersFades(st, keys, now);
    assert su.reservations[r] == st.reservations[r];
    var lease := st.reservations[r].lease;
    if lease.Some? && lease.value in st.leases {
      assert LeaseFades(st.leases[lease.value], su.leases[lease.value]);
    }
    SealsUntouched(st, keys, now, st.reservations[r].session);
    hide FailCohorts, Fades;
    assert CohortExpired(su, r, now);
  }

  lemma SealsUntouched(st: Pool, keys: set<CohortKey>, now: int, s: nat)
    ensures Unsealed(FailCohorts(st, keys, true, now).sessions, s) <==> Unsealed(st.sessions, s)
  {
    hide InCohort, OwnsProject;
  }

  /** When, on an unsealed Desktop, one member has expired without a permit, or its
      task is over while a sibling lives, a refresh ends the whole cohort: no
      reservation of the key stays live and no member stays attached, unless permitted. */
  lemma RefreshSharesFate(st: Pool, now: int, r: nat)
    requires r in st.reservations && (CohortExpired(st, r, now) || HasTerminalSibling(st, r))
    ensures Ended(RefreshReservations(st, now), st.reservations[r].key)
  {
    var key := st.reservations[r].key;
    if key in TerminalSiblingKeys(st) {
      RefreshEndsSiblings(st, now, key);
    } else {
      StillExpired(st, TerminalSiblingKeys(st), now, r);
      RefreshEndsExpired(st, now, key);
    }
  }
}
