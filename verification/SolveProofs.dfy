/** Granting a wave: what it needs, what it changes and what it keeps. */
module PoolSolveProofs {
  import opened PoolRows
  import opened PoolInvariant
  import opened PoolCalm
  import opened PoolSolve

  /** A Desktop whose batch is complete and holds no permit at the moment. */
  ghost predicate Grantable(st: Pool, s: nat) {
    && s in st.sessions && st.sessions[s].state.Assignable() && Waiting(st.leases, s) != {}
    && (forall id :: id in st.leases && Holder(st.leases[id], s) ==>
          st.leases[id].permit.None? && (st.leases[id].state.Active? || st.leases[id].state.Releasing?))
    && (forall r :: r in st.reservations && LiveOn(st.reservations[r], s) ==> st.reservations[r].state.Consumed?)
  }

  /** The lease rows after the wave starts. */
  lemma StartWaveEffect(safe: set<string>, st: Pool, s: nat)
    requires s in st.sessions && Waiting(st.leases, s) != {}
    ensures
      var su := StartWave(safe, st, s);
      var chosen := NextWave(safe, st.leases, Waiting(st.leases, s));
      && chosen <= Waiting(st.leases, s) && Least(Waiting(st.leases, s)) in chosen
      && su.leases.Keys == st.leases.Keys
      && (forall id :: id in chosen ==>
            su.leases[id] == st.leases[id].(permit := Some(st.sessions[s].wave + 1)))
      && (forall id :: id in st.leases && id !in chosen ==> su.leases[id] == st.leases[id])
      && su.reservations == st.reservations
      && su.sessions == st.sessions[s := st.sessions[s].(isSealed := true, wave := st.sessions[s].wave + 1)]
  {
  }

  lemma StartWaveLeaseRow(safe: set<string>, st: Pool, s: nat, id: nat)
    requires Grantable(st, s) && id in st.leases && LeaseRow(st.sessions, st.leases[id])
    ensures LeaseRow(StartWave(safe, st, s).sessions, StartWave(safe, st, s).leases[id])
  {
    StartWaveEffect(safe, st, s);
    if id in Waiting(st.leases, s) {
      assert Holder(st.leases[id], s);
    }
  }

  lemma StartWaveSharing(safe: set<string>, st: Pool, s: nat)
    requires Grantable(st, s) && Sharing(safe, st.leases)
    ensures Sharing(safe, StartWave(safe, st, s).leases)
  {
    var su := StartWave(safe, st, s);
    StartWaveEffect(safe, st, s);
    forall i, j | i in su.leases && j in su.leases && i != j
      ensures Neighbours(safe, su.leases[i], su.leases[j])
    {
      assert Neighbours(safe, st.leases[i], st.leases[j]);
      if i in Waiting(st.leases, s) && j in Waiting(st.leases, s) {
        assert Holder(st.leases[i], s) && Holder(st.leases[j], s);
      }
    }
  }

  lemma StartWaveReservationRows(safe: set<string>, st: Pool, s: nat)
    requires Grantable(st, s) && ReservationRows(st.sessions, st.leases, st.reservations)
    ensures var su := StartWave(safe, st, s);
            ReservationRows(su.sessions, su.leases, su.reservations)
  {
    var su := StartWave(safe, st, s);
    StartWaveEffect(safe, st, s);
    forall r | r in su.reservations
      ensures ReservationRow(su.sessions, su.leases, r, su.reservations[r])
    {
      assert ReservationRow(st.sessions, st.leases, r, st.reservations[r]);
    }
  }

  lemma StartWaveHolders(safe: set<string>, st: Pool, s: nat, t: nat)
    requires Grantable(st, s)
    ensures
      var su := StartWave(safe, st, s);
      && Holders(su.leases, t) == Holders(st.leases, t)
      && FreeHolders(su.leases, t) == FreeHolders(st.leases, t)
      && (t != s ==> Waiting(su.leases, t) <= Waiting(st.leases, t))
      && PinnedSlots(su.leases, su.reservations, t) == PinnedSlots(st.leases, st.reservations, t)
  {
    hide NextWave;
    StartWaveEffect(safe, st, s);
  }

  lemma StartWaveOrdered(safe: set<string>, st: Pool, s: nat, a: nat, b: nat, t: nat)
    requires safe == {} && Grantable(st, s) && t in st.sessions && a in st.leases && b in st.leases
    requires LeaseRow(st.sessions, st.leases[a]) && LeaseRow(st.sessions, st.leases[b])
    requires Ordered(st.sessions, t, a, st.leases[a], b, st.leases[b])
    ensures var su := StartWave(safe, st, s); Ordered(su.sessions, t, a, su.leases[a], b, su.leases[b])
  {
    StartWaveEffect(safe, st, s);
    if t == s && b in Waiting(st.leases, s) {
      assert Least(Waiting(st.leases, s)) <= b;
    }
  }

  lemma StartWaveInv(safe: set<string>, st: Pool, s: nat)
    requires Inv(safe, st) && Grantable(st, s)
    ensures Inv(safe, StartWave(safe, st, s))
  {
    hide Grantable, LeaseRow, Sharing, ReservationRows, Ordered, Pins, Capacity, Cohorts, StartWave, Waiting;
    StartWaveKeys(safe, st, s);
    var su := StartWave(safe, st, s);
    StartWaveSharing(safe, st, s);
    StartWaveReservationRows(safe, st, s);
    assert SessionRows(su.sessions) by { StartWaveSessionRows(safe, st, s); }
    hide SessionRows;
    assert LeaseRows(su.sessions, su.leases) by {
      forall id | id in su.leases
        ensures LeaseRow(su.sessions, su.leases[id])
      {
        StartWaveLeaseRow(safe, st, s, id);
      }
    }
    StartWaveRest(safe, st, s);
    assert WaveOrder(safe, su.sessions, su.leases) by {
      if safe == {} {
        forall a, b, t | a in su.leases && b in su.leases && t in su.sessions
          ensures Ordered(su.sessions, t, a, su.leases[a], b, su.leases[b])
        {
          StartWaveOrdered(safe, st, s, a, b, t);
        }
      }
    }
  }

  lemma StartWaveSessionRows(safe: set<string>, st: Pool, s: nat)
    requires SessionRows(st.sessions) && Grantable(st, s)
    ensures SessionRows(StartWave(safe, st, s).sessions)
  {
    StartWaveEffect(safe, st, s);
    var su := StartWave(safe, st, s);
    forall t | t in su.sessions
      ensures Booted(su.sessions[t])
    {
      assert Booted(st.sessions[t]);
    }
  }

  lemma StartWaveKeys(safe: set<string>, st: Pool, s: nat)
    requires Grantable(st, s)
    ensures s in st.sessions && Waiting(st.leases, s) != {}
    ensures StartWave(safe, st, s).leases.Keys == st.leases.Keys
    ensures StartWave(safe, st, s).sessions.Keys == st.sessions.Keys
    ensures StartWave(safe, st, s).reservations == st.reservations
  {
  }

  lemma StartWaveRest(safe: set<string>, st: Pool, s: nat)
    requires Inv(safe, st) && Grantable(st, s)
    ensures var su := StartWave(safe, st, s);
            Pins(su.leases, su.reservations) && Capacity(su.sessions, su.leases, su.reservations)
  {
    hide LeaseRows, Sharing, ReservationRows, WaveOrder, Cohorts;
    var su := StartWave(safe, st, s);
    StartWaveEffect(safe, st, s);
    forall id | id in su.leases
      ensures PinnedLease(su.reservations, id, su.leases[id])
    {
      assert PinnedLease(st.reservations, id, st.leases[id]);
    }
    forall t | t in su.sessions
      ensures Fits(su.sessions, su.leases, su.reservations, t)
    {
      StartWaveHolders(safe, st, s, t);
      assert Fits(st.sessions, st.leases, st.reservations, t);
    }
  }

  // ----- what a wave leaves alone -----

  lemma StartWaveEvolves(safe: set<string>, st: Pool, s: nat)
    requires Grantable(st, s)
    ensures Evolves(st, StartWave(safe, st, s))
  {
    hide NextWave;
    StartWaveEffect(safe, st, s);
  }

  predicate SameButPermit(l: Lease, m: Lease) {
    m.req == l.req && m.state == l.state && m.session == l.session && m.slot == l.slot && m.marker == l.marker
  }

  predicate SameButWave(x: Session, y: Session) {
    && y.state == x.state && y.blockedAt == x.blockedAt && y.started == x.started && y.quarantine == x.quarantine
    && (x.isSealed ==> y.isSealed)
  }

  /** A wave changes no lease but its permit, and no Desktop but its wave and seal. */
  lemma StartWaveRows(safe: set<string>, st: Pool, s: nat)
    requires Grantable(st, s)
    ensures
      var su := StartWave(safe, st, s);
      && su.leases.Keys == st.leases.Keys && su.sessions.Keys == st.sessions.Keys
      && (forall id :: id in st.leases ==> SameButPermit(st.leases[id], su.leases[id]))
      && (forall t :: t in st.sessions ==> SameButWave(st.sessions[t], su.sessions[t]))
  {
    hide NextWave;
    StartWaveEffect(safe, st, s);
  }

  lemma SameOwner(ss: Sessions, ts: Sessions, l: Lease, m: Lease)
    requires SameButPermit(l, m) && ts.Keys == ss.Keys
    requires forall t :: t in ss ==> SameButWave(ss[t], ts[t])
    ensures OwnershipKept(ts, l, m) && SealKept(ss, ts, l, m)
  {
  }

  lemma StartWaveOwned(safe: set<string>, st: Pool, s: nat)
    requires Grantable(st, s)
    ensures var su := StartWave(safe, st, s); Owned(st, su) && Quiet(NOTHING, st, su) && Arms(st, su)
  {
    var su := StartWave(safe, st, s);
    StartWaveRows(safe, st, s);
    hide StartWave, Grantable, OwnershipKept, SealKept, SameButWave;
    forall id | id in st.leases
      ensures OwnershipKept(su.sessions, st.leases[id], su.leases[id])
      ensures SealKept(st.sessions, su.sessions, st.leases[id], su.leases[id])
    {
      SameOwner(st.sessions, su.sessions, st.leases[id], su.leases[id]);
    }
  }

  lemma StartWaveLifecycle(safe: set<string>, st: Pool, s: nat)
    requires Grantable(st, s)
    ensures var su := StartWave(safe, st, s); Lifecycle(NOTHING, st, su) && Rests(NOTHING, st, su)
  {
    hide StartWave, Successor, SameButPermit;
    var su := StartWave(safe, st, s);
    StartWaveRows(safe, st, s);
    hide Grantable;
    forall id | id in st.leases
      ensures Successor(NOTHING, id, st.leases[id], su.leases[id])
    {
      SameSuccessor(id, st.leases[id], su.leases[id]);
    }
  }

  lemma SameSuccessor(id: nat, l: Lease, m: Lease)
    requires SameButPermit(l, m)
    ensures Successor(NOTHING, id, l, m)
  {
  }

  lemma StartWaveBatches(safe: set<string>, st: Pool, s: nat, t: nat)
    requires Grantable(st, s) && t in st.sessions && t != s
    ensures BatchClosed(st, StartWave(safe, st, s), t)
  {
    hide Grantable, Waiting, Holders, NextWave;
    StartWaveKeys(safe, st, s);
    StartWaveHolders(safe, st, s, t);
  }

  lemma StartWaveAdmits(safe: set<string>, target: int, st: Pool, s: nat)
    requires Grantable(st, s)
    ensures Admits(target, st, StartWave(safe, st, s))
  {
    hide NextWave;
    var su := StartWave(safe, st, s);
    StartWaveEffect(safe, st, s);
    assert (set id | id in su.leases && su.leases[id].state.Holds() :: AdmissionKey(id, su.leases[id]))
        == (set id | id in st.leases && st.leases[id].state.Holds() :: AdmissionKey(id, st.leases[id]));
  }

  lemma StartWaveBarrier(safe: set<string>, st: Pool, s: nat)
    requires Grantable(st, s)
    ensures BarrierHolds({}, st, StartWave(safe, st, s))
    ensures Barred(st) ==> Barred(StartWave(safe, st, s))
  {
    hide NextWave;
    var su := StartWave(safe, st, s);
    StartWaveEffect(safe, st, s);
    forall t | t in st.sessions
      ensures Holders(su.leases, t) == Holders(st.leases, t)
    {
      StartWaveHolders(safe, st, s, t);
    }
    if Barred(st) {
      forall id | id in su.leases
        ensures BehindBarrier(su.sessions, su.leases[id])
      {
        assert BehindBarrier(st.sessions, st.leases[id]);
      }
    }
  }
}
