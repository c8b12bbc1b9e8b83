/** What one committed transaction may do, including the grant of a solve wave. */
module PoolGrant {
  import opened PoolRows
  import opened PoolInvariant
  import opened PoolCalm
  import opened PoolRefresh
  import opened PoolRefreshProofs
  import opened PoolSolve
  import opened PoolSolveProofs

  /** Two members of one wave. */
  predicate MayOverlap(safe: set<string>, a: Lease, b: Lease) {
    a.req.family == b.req.family && a.req.family in safe
  }

  /** Before: the wave a sealed Desktop ran last is finished, lease by lease. */
  ghost predicate FromSeal(st: Pool, su: Pool, s: nat)
    requires s in st.sessions && s in su.sessions
  {
    && NoEntry(st, su, s)
    && Wave(su.leases, s, st.sessions[s].wave) != {}
    && WaveSucceeded(su.leases, s, st.sessions[s].wave)
    && Wave(su.leases, s, su.sessions[s].wave) <= Waiting(st.leases, s)
    && Wave(su.leases, s, su.sessions[s].wave) !! Waiting(su.leases, s)
  }

  /** Before: an unsealed Desktop all of whose owners and reservations are active. */
  ghost predicate FromOpen(su: Pool, s: nat) {
    ReservationsActive(su, s) &&
    forall id :: id in su.leases && Holder(su.leases[id], s) ==> su.leases[id].state.Active?
  }

  /** The next wave of Desktop `s` is granted between the two states. */
  ghost predicate Grants(safe: set<string>, st: Pool, su: Pool, s: nat)
    requires s in st.sessions && s in su.sessions
  {
    var wave := Wave(su.leases, s, su.sessions[s].wave);
    && su.sessions[s].isSealed && su.sessions[s].wave == st.sessions[s].wave + 1
    && wave != {}
    && (forall id :: id in wave ==> Holder(su.leases[id], s) && su.leases[id].state.Active?)
    && (forall i, j :: i in wave && j in wave && i != j ==> MayOverlap(safe, su.leases[i], su.leases[j]))
    && (exists i :: i in wave && forall j :: j in Waiting(su.leases, s) ==> i < j)
    && (if st.sessions[s].isSealed then FromSeal(st, su, s) else FromOpen(su, s))
  }

  /** One transaction: everything `Calm` promises, except that the next wave of
      some Desktop may be granted. */
  ghost predicate Progress(safe: set<string>, target: int, may: May, st: Pool, su: Pool) {
    && Inv(safe, su) && Evolves(st, su) && Owned(st, su) && Quiet(may, st, su)
    && Lifecycle(may, st, su) && Rests(may, st, su)
    && Admits(target, st, su) && BarrierHolds(may.clears, st, su)
    && (forall s :: s in st.sessions && s in su.sessions ==> BatchClosed(st, su, s) || Grants(safe, st, su, s))
    && (forall s :: s in su.sessions && s !in st.sessions ==> !su.sessions[s].isSealed)
  }

  ghost predicate Advances(safe: set<string>, target: int, may: May, st: Pool, su: Pool) {
    Progress(safe, target, may, st, su) && Arms(st, su) && (Barred(st) ==> Barred(su))
  }

  lemma CalmProgress(safe: set<string>, target: int, may: May, st: Pool, su: Pool)
    requires Inv(safe, su) && Calm(target, may, st, su)
    ensures Progress(safe, target, may, st, su)
  {
    hide Inv, Evolves, Owned, Quiet, Lifecycle, Rests, Arms, Admits, BarrierHolds, BatchClosed, Grants;
  }

  lemma KeptAdvances(safe: set<string>, target: int, may: May, st: Pool, su: Pool)
    requires Kept(safe, target, may, st, su)
    ensures Advances(safe, target, may, st, su)
  {
    hide Inv, Evolves, Owned, Quiet, Lifecycle, Rests, Arms, Admits, BarrierHolds, Barred, BatchClosed, Grants;
  }

  // ----- the wave that StartWave grants -----

  /** The batch may go on: a sealed one has finished its last wave. */
  ghost predicate MayStart(st: Pool, s: nat) {
    && Grantable(st, s)
    && (if st.sessions[s].isSealed
        then Wave(st.leases, s, st.sessions[s].wave) != {} && WaveSucceeded(st.leases, s, st.sessions[s].wave)
        else FromOpen(st, s))
  }

  lemma StartedWave(safe: set<string>, st: Pool, s: nat)
    requires LeaseRows(st.sessions, st.leases) && Grantable(st, s)
    ensures
      var su := StartWave(safe, st, s);
      var chosen := NextWave(safe, st.leases, Waiting(st.leases, s));
      && Wave(su.leases, s, su.sessions[s].wave) == chosen
      && Waiting(su.leases, s) == Waiting(st.leases, s) - chosen
      && Wave(su.leases, s, st.sessions[s].wave) == Wave(st.leases, s, st.sessions[s].wave)
  {
    hide NextWave;
    StartWaveEffect(safe, st, s);
    var su := StartWave(safe, st, s);
    forall id | id in st.leases
      ensures !InWave(st.leases[id], s, su.sessions[s].wave)
    {
      assert LeaseRow(st.sessions, st.leases[id]);
    }
  }

  lemma ChosenOverlap(safe: set<string>, st: Pool, s: nat)
    requires s in st.sessions && Waiting(st.leases, s) != {}
    ensures
      var chosen := NextWave(safe, st.leases, Waiting(st.leases, s));
      forall i, j :: i in chosen && j in chosen && i != j ==> MayOverlap(safe, st.leases[i], st.leases[j])
  {
  }

  lemma ChosenFirst(safe: set<string>, st: Pool, s: nat)
    requires s in st.sessions && Waiting(st.leases, s) != {}
    ensures
      var chosen := NextWave(safe, st.leases, Waiting(st.leases, s));
      exists i :: i in chosen && forall j :: j in Waiting(st.leases, s) - chosen ==> i < j
  {
    var waiting := Waiting(st.leases, s);
    var i := Least(waiting);
    var chosen := NextWave(safe, st.leases, waiting);
    assert i in chosen;
    forall j | j in waiting - chosen
      ensures i < j
    {
      assert i <= j;
    }
  }

  lemma StartWaveWave(safe: set<string>, st: Pool, s: nat)
    requires LeaseRows(st.sessions, st.leases) && Grantable(st, s)
    ensures
      var su := StartWave(safe, st, s);
      var wave := Wave(su.leases, s, su.sessions[s].wave);
      && su.sessions[s].isSealed && su.sessions[s].wave == st.sessions[s].wave + 1
      && wave != {} && wave <= Waiting(st.leases, s) && wave !! Waiting(su.leases, s)
      && (forall id :: id in wave ==> Holder(su.leases[id], s) && su.leases[id].state.Active?)
      && (forall i, j :: i in wave && j in wave && i != j ==> MayOverlap(safe, su.leases[i], su.leases[j]))
      && (exists i :: i in wave && forall j :: j in Waiting(su.leases, s) ==> i < j)
  {
    var su := StartWave(safe, st, s);
    StartedWave(safe, st, s);
    StartWaveEffect(safe, st, s);
    ChosenOverlap(safe, st, s);
    ChosenFirst(safe, st, s);
  }

  /** Reservation and owner states are untouched by the grant. */
  lemma StartWaveOpen(safe: set<string>, st: Pool, s: nat)
    requires Grantable(st, s) && FromOpen(st, s)
    ensures FromOpen(StartWave(safe, st, s), s)
  {
    hide NextWave;
    StartWaveEffect(safe, st, s);
  }

  lemma StartWavePredecessor(safe: set<string>, st: Pool, s: nat)
    requires LeaseRows(st.sessions, st.leases) && Grantable(st, s)
    requires WaveSucceeded(st.leases, s, st.sessions[s].wave)
    ensures WaveSucceeded(StartWave(safe, st, s).leases, s, st.sessions[s].wave)
  {
    hide NextWave;
    StartWaveEffect(safe, st, s);
  }

  lemma StartWaveEntry(safe: set<string>, mid: Pool, s: nat)
    requires Grantable(mid, s) && LeaseRows(mid.sessions, mid.leases)
    ensures NoEntry(mid, StartWave(safe, mid, s), s)
  {
    hide LeaseRows, NextWave;
    StartWaveKeys(safe, mid, s);
    StartWaveHolders(safe, mid, s, s);
    StartedWave(safe, mid, s);
  }

  lemma EbbGrants(safe: set<string>, target: int, st: Pool, mid: Pool, s: nat)
    requires Ebbs(safe, target, st, mid) && MayStart(mid, s)
    ensures s in st.sessions && s in StartWave(safe, mid, s).sessions
    ensures Grants(safe, st, StartWave(safe, mid, s), s)
  {
    hide LeaseRows, Sharing, ReservationRows, Pins, Cohorts, Capacity, WaveOrder, Barred, Admits, BarrierHolds, Owned, Quiet, Lifecycle, Rests, Arms, SessionRows;
    hide NextWave, StartWave, FromOpen, WaveSucceeded, Evolves, Neighbours;
    StartWaveKeys(safe, mid, s);
    var su := StartWave(safe, mid, s);
    StartWaveWave(safe, mid, s);
    assert BatchClosed(st, mid, s);
    assert Holders(mid.leases, s) != {} by {
      assert Waiting(mid.leases, s) <= Holders(mid.leases, s);
    }
    if mid.sessions[s].isSealed {
      StartWavePredecessor(safe, mid, s);
      StartedWave(safe, mid, s);
      StartWaveEntry(safe, mid, s);
    } else {
      StartWaveOpen(safe, mid, s);
    }
  }

  /** A transaction that settles rows and then grants. */
  lemma EbbThenStart(safe: set<string>, target: int, st: Pool, mid: Pool, s: nat)
    requires Inv(safe, st) && Ebbs(safe, target, st, mid) && MayStart(mid, s)
    ensures s in mid.sessions && Advances(safe, target, NOTHING, st, StartWave(safe, mid, s))
  {
    hide Inv, Evolves, Owned, Quiet, Lifecycle, Rests, Arms, Admits, BarrierHolds, Barred, Grants, BatchClosed, StartWave, Grantable, Waiting, FromOpen;
    hide WaveSucceeded, Wave;
    StartWaveKeys(safe, mid, s);
    var su := StartWave(safe, mid, s);
    EbbGrants(safe, target, st, mid, s);
    StartWaveInv(safe, mid, s);
    EbbStartHistory(safe, target, st, mid, s);
    forall t | t in st.sessions
      ensures BatchClosed(st, su, t) || Grants(safe, st, su, t)
    {
      if t != s {
        EbbStartBatches(safe, target, st, mid, s, t);
      }
    }
  }

  lemma EbbStartHistory(safe: set<string>, target: int, st: Pool, mid: Pool, s: nat)
    requires Ebbs(safe, target, st, mid) && Grantable(mid, s)
    ensures
      var su := StartWave(safe, mid, s);
      && Evolves(st, su) && Owned(st, su) && Quiet(NOTHING, st, su) && Lifecycle(NOTHING, st, su)
      && Rests(NOTHING, st, su) && Arms(st, su) && Admits(target, st, su) && BarrierHolds({}, st, su) && (Barred(st) ==> Barred(su))
  {
    hide Inv, Grantable, StartWave, Barred, Evolves, Owned, Quiet, Lifecycle, Rests, Arms, NoWave, Admits, BarrierHolds;
    StartWaveKeys(safe, mid, s);
    var su := StartWave(safe, mid, s);
    StartWaveEvolves(safe, mid, s);
    StartWaveAdmits(safe, target, mid, s);
    StartWaveBarrier(safe, mid, s);
    StartWaveOwned(safe, mid, s);
    StartWaveLifecycle(safe, mid, s);
    EvolvesTransitive(st, mid, su);
    OwnedTransitive(st, mid, su);
    QuietTransitive(NOTHING, NOTHING, st, mid, su);
    LifecycleTransitive(NOTHING, NOTHING, st, mid, su);
    RestsTransitive(NOTHING, NOTHING, st, mid, su);
    ArmsTransitive(NOTHING, NOTHING, st, mid, su);
    assert Both(NOTHING, NOTHING) == NOTHING;
    AdmitsTransitive(target, st, mid, su);
    BarrierTransitive(NOTHING.clears, NOTHING.clears, st, mid, su);
    assert NOTHING.clears + NOTHING.clears == {};
  }

  lemma EbbStartBatches(safe: set<string>, target: int, st: Pool, mid: Pool, s: nat, t: nat)
    requires Ebbs(safe, target, st, mid) && Grantable(mid, s) && t in st.sessions && t != s
    ensures t in StartWave(safe, mid, s).sessions && BatchClosed(st, StartWave(safe, mid, s), t)
  {
    hide Inv, Evolves, Owned, Quiet, Lifecycle, Rests, Arms, Admits, BarrierHolds, Barred, StartWave, Grantable, Holders, Waiting;
    StartWaveKeys(safe, mid, s);
    StartWaveBatches(safe, mid, s, t);
    assert BatchClosed(st, mid, t);
  }

  // ----- the grant transaction -----

  lemma OpenMayStart(safe: set<string>, st: Pool, s: nat, underfilled: bool)
    requires LeaseRows(st.sessions, st.leases)
    requires s in st.sessions && st.sessions[s].state.Assignable() && !st.sessions[s].isSealed
    requires MaySeal(st, s, underfilled)
    ensures MayStart(st, s)
  {
    forall id | id in st.leases && Holder(st.leases[id], s)
      ensures Waits(st.leases[id])
    {
      assert LeaseRow(st.sessions, st.leases[id]);
    }
    var id :| id in Holders(st.leases, s);
    assert id in Waiting(st.leases, s);
  }

  lemma SealedMayStart(safe: set<string>, st: Pool, s: nat)
    requires LeaseRows(st.sessions, st.leases) && ReservationRows(st.sessions, st.leases, st.reservations)
    requires s in st.sessions && st.sessions[s].state.Assignable() && st.sessions[s].isSealed
    requires WaveOver(st.leases, s, st.sessions[s].wave) && WaveSucceeded(st.leases, s, st.sessions[s].wave)
    requires Waiting(st.leases, s) != {}
    ensures MayStart(st, s)
  {
    forall id | id in st.leases && Holder(st.leases[id], s)
      ensures st.leases[id].permit.None?
    {
      assert LeaseRow(st.sessions, st.leases[id]);
      assert !InWave(st.leases[id], s, st.sessions[s].wave);
    }
    forall r | r in st.reservations && LiveOn(st.reservations[r], s)
      ensures st.reservations[r].state.Consumed?
    {
      assert ReservationRow(st.sessions, st.leases, r, st.reservations[r]);
    }
  }

  /** A failed predecessor stops the batch: no wave, and nobody waits any more. */
  lemma StopBatchEbbs(safe: set<string>, target: int, st: Pool, s: nat, now: int)
    requires Inv(safe, st) && s in st.sessions && st.sessions[s].state.Assignable()
    ensures Ebbs(safe, target, st, StopBatch(st, s, now))
    ensures Waiting(StopBatch(st, s, now).leases, s) == {}
  {
    var x := st.sessions[s];
    var y := x.(state := Draining, fault := OtherFault,
                blockedAt := Coalesce(x.blockedAt, now), drainAt := Coalesce(x.drainAt, now));
    var mid := st.(sessions := st.sessions[s := y]);
    hide Inv, Ebbs, AllBlocked;
    assert AllBlocked(mid, Waiting(st.leases, s)) by {
      WaitingBlocked(mid, s);
    }
    assert Waiting(StopBatch(st, s, now).leases, s) == {} by {
      NoneWaits(mid, s, now);
    }
    hide Waiting, Coalesce, ReleaseLeases;
    OneSessionEbbs(safe, target, st, s, y);
    assert Inv(safe, mid) by { EbbsInv(safe, target, st, mid); }
    ReleaseLeasesEbbs(safe, target, mid, Waiting(st.leases, s), now);
    EbbChain(safe, target, st, mid, StopBatch(st, s, now));
  }

  lemma WaitingBlocked(st: Pool, s: nat)
    requires s in st.sessions && st.sessions[s].blockedAt.Some?
    ensures AllBlocked(st, Waiting(st.leases, s))
  {
  }

  lemma NoneWaits(st: Pool, s: nat, now: int)
    ensures Waiting(ReleaseLeases(st, Waiting(st.leases, s), now).leases, s) == {}
  {
  }

  lemma EbbAdvances(safe: set<string>, target: int, st: Pool, su: Pool)
    requires Ebbs(safe, target, st, su)
    ensures Advances(safe, target, NOTHING, st, su)
  {
    hide Kept, Advances;
    KeptAdvances(safe, target, NOTHING, st, su);
  }

  lemma GrantReadyAdvances(safe: set<string>, target: int, st: Pool, mid: Pool, s: nat, now: int, underfilled: bool)
    requires Inv(safe, st) && Ebbs(safe, target, st, mid)
    ensures Advances(safe, target, NOTHING, st, GrantReady(safe, mid, s, now, underfilled))
  {
    var su := GrantReady(safe, mid, s, now, underfilled);
    hide Ebbs, Advances, MaySeal, WaveSucceeded, WaveOver, Waiting, StartWave, StopBatch, MayStart;
    EbbsInv(safe, target, st, mid);
    hide LeaseRows, Sharing, ReservationRows, Pins, Cohorts, Capacity, WaveOrder;
    if s !in mid.sessions || !mid.sessions[s].state.Assignable() {
      EbbAdvances(safe, target, st, su);
    } else if !mid.sessions[s].isSealed {
      if MaySeal(mid, s, underfilled) {
        OpenMayStart(safe, mid, s, underfilled);
        EbbThenStart(safe, target, st, mid, s);
      } else {
        EbbAdvances(safe, target, st, su);
      }
    } else if !WaveOver(mid.leases, s, mid.sessions[s].wave) {
      EbbAdvances(safe, target, st, su);
    } else if !WaveSucceeded(mid.leases, s, mid.sessions[s].wave) {
      StopBatchEbbs(safe, target, mid, s, now);
      EbbChain(safe, target, st, mid, su);
      EbbAdvances(safe, target, st, su);
    } else if Waiting(mid.leases, s) == {} {
      EbbAdvances(safe, target, st, su);
    } else {
      SealedMayStart(safe, mid, s);
      EbbThenStart(safe, target, st, mid, s);
    }
  }

  /** Every transaction that ends in a grant advances the pool. */
  lemma GrantBatchAdvances(safe: set<string>, target: int, st: Pool, mid: Pool, s: nat, now: int, underfilled: bool)
    requires Inv(safe, st) && Ebbs(safe, target, st, mid)
    ensures Advances(safe, target, NOTHING, st, GrantBatch(safe, mid, s, now, underfilled))
  {
    hide Ebbs, Advances, Inv;
    EbbsInv(safe, target, st, mid);
    RefreshReservationsEbbs(safe, target, mid, now);
    EbbChain(safe, target, st, mid, RefreshReservations(mid, now));
    GrantReadyAdvances(safe, target, st, RefreshReservations(mid, now), s, now, underfilled);
  }
}
