/** What holds in every reachable state. */
module PoolSafety {
  import opened PoolRows
  import opened PoolInvariant
  import opened PoolCalm
  import opened PoolGrant
  import opened PoolPlacement
  import opened PoolPlacementProofs
  import opened PoolSteps
  import opened PoolStepProofs

  lemma ProgressInv(safe: set<string>, target: int, may: May, st: Pool, su: Pool)
    requires Progress(safe, target, may, st, su)
    ensures Inv(safe, su)
  {
  }

  lemma EmptyInv(safe: set<string>)
    ensures Inv(safe, EMPTY_POOL) && Barred(EMPTY_POOL)
  {
  }

  /** Every run from a good state ends in a good state. */
  lemma {:induction false} RunInv(safe: set<string>, st: Pool, es: seq<Event>)
    requires Inv(safe, st) && FairRun(safe, st, es)
    ensures Inv(safe, Run(safe, st, es))
    decreases |es|
  {
    hide Inv, Next, Fair, Licence, Progress;
    if es != [] {
      StepProgress(safe, st, es[0]);
      ProgressInv(safe, es[0].cfg.target, Licence(st, es[0]), st, Next(safe, st, es[0]));
      RunInv(safe, Next(safe, st, es[0]), es[1..]);
    }
  }

  /** The database may hold this after some interleaving of the pool's transactions. */
  ghost predicate Reachable(safe: set<string>, st: Pool) {
    exists es :: FairRun(safe, EMPTY_POOL, es) && st == Run(safe, EMPTY_POOL, es)
  }

  lemma ReachableInv(safe: set<string>, st: Pool)
    requires Reachable(safe, st)
    ensures Inv(safe, st)
  {
    hide Inv, Next, Fair;
    var es :| FairRun(safe, EMPTY_POOL, es) && st == Run(safe, EMPTY_POOL, es);
    EmptyInv(safe);
    RunInv(safe, EMPTY_POOL, es);
  }

  predicate HoldsPermit(l: Lease, s: nat) {
    Holder(l, s) && l.permit.Some?
  }

  /** Live permits on one Desktop belong to one wave, the current one of a sealed
      batch, and to one family whose solves may overlap, or there is only one. */
  lemma OneWaveOneFamily(safe: set<string>, st: Pool, s: nat, i: nat, j: nat)
    requires Reachable(safe, st) && i in st.leases && j in st.leases
    requires HoldsPermit(st.leases[i], s) && HoldsPermit(st.leases[j], s)
    ensures s in st.sessions && st.sessions[s].isSealed
    ensures st.leases[i].permit == st.leases[j].permit == Some(st.sessions[s].wave)
    ensures i == j || (st.leases[i].req.family == st.leases[j].req.family && st.leases[i].req.family in safe)
  {
    ReachableInv(safe, st);
    assert LeaseRow(st.sessions, st.leases[i]) && LeaseRow(st.sessions, st.leases[j]);
    if i != j {
      assert Neighbours(safe, st.leases[i], st.leases[j]);
    }
  }

  /** With the code's empty set of overlap-safe families, native solves never overlap. */
  lemma SolvesAreSerial(st: Pool, s: nat, i: nat, j: nat)
    requires Reachable({}, st) && i in st.leases && j in st.leases
    requires HoldsPermit(st.leases[i], s) && HoldsPermit(st.leases[j], s)
    ensures i == j
  {
    hide Reachable;
    OneWaveOneFamily({}, st, s, i, j);
  }

  /** Owned and held slots never exceed the Desktop's slots; slot indexes are
      distinct and in range, and the free-index search of placement succeeds. */
  lemma SlotsConserved(safe: set<string>, st: Pool, s: nat)
    requires Reachable(safe, st) && s in st.sessions
    ensures |Holders(st.leases, s)| + |HeldByOthers(st.reservations, s, 0)| <= st.sessions[s].slots
    ensures forall i :: i in Holders(st.leases, s) ==> st.leases[i].slot < st.sessions[s].slots
    ensures forall i, j :: i in Holders(st.leases, s) && j in Holders(st.leases, s) && i != j ==>
      st.leases[i].slot != st.leases[j].slot
    ensures |Holders(st.leases, s)| < st.sessions[s].slots ==>
      FreeIndex(OccupiedSlots(st.leases, s), 0) < st.sessions[s].slots
  {
    ReachableInv(safe, st);
    hide Reachable, Inv, Holders, HeldByOthers;
    SlotCount(safe, st, s);
    FitsAll(safe, st, s);
    HoldersInRange(safe, st, s);
    if |Holders(st.leases, s)| < st.sessions[s].slots {
      FreeSlotInRange(st.leases, s, st.sessions[s].slots);
    }
  }

  lemma FitsAll(safe: set<string>, st: Pool, s: nat)
    requires Inv(safe, st) && s in st.sessions
    ensures Fits(st.sessions, st.leases, st.reservations, s)
  {
  }

  lemma HoldersInRange(safe: set<string>, st: Pool, s: nat)
    requires Inv(safe, st) && s in st.sessions
    ensures forall i :: i in Holders(st.leases, s) ==> st.leases[i].slot < st.sessions[s].slots
    ensures forall i, j :: i in Holders(st.leases, s) && j in Holders(st.leases, s) && i != j ==>
      st.leases[i].slot != st.leases[j].slot
  {
    forall i | i in Holders(st.leases, s)
      ensures st.leases[i].slot < st.sessions[s].slots
    {
      assert LeaseRow(st.sessions, st.leases[i]);
    }
    forall i, j | i in Holders(st.leases, s) && j in Holders(st.leases, s) && i != j
      ensures st.leases[i].slot != st.leases[j].slot
    {
      assert Neighbours(safe, st.leases[i], st.leases[j]);
    }
  }

  /** Nobody is on the way into a sealed Desktop. */
  lemma SealedIsClosed(safe: set<string>, st: Pool, s: nat)
    requires Reachable(safe, st) && s in st.sessions && st.sessions[s].isSealed
    ensures forall i :: i in Holders(st.leases, s) ==> st.leases[i].state.Active? || st.leases[i].state.Releasing?
    ensures forall r :: r in st.reservations && LiveOn(st.reservations[r], s) ==> st.reservations[r].state.Consumed?
  {
    ReachableInv(safe, st);
    forall i | i in Holders(st.leases, s)
      ensures st.leases[i].state.Active? || st.leases[i].state.Releasing?
    {
      assert LeaseRow(st.sessions, st.leases[i]);
    }
    forall r | r in st.reservations && LiveOn(st.reservations[r], s)
      ensures st.reservations[r].state.Consumed?
    {
      assert ReservationRow(st.sessions, st.leases, r, st.reservations[r]);
    }
  }

  /** Two owners of one Desktop may share it, in both directions; an exclusive one is alone. */
  lemma OwnersShare(safe: set<string>, st: Pool, s: nat, i: nat, j: nat)
    requires Reachable(safe, st) && i in Holders(st.leases, s) && j in Holders(st.leases, s) && i != j
    ensures Compatible(st.leases[i].req, st.leases[j].req) && Compatible(st.leases[j].req, st.leases[i].req)
    ensures !st.leases[i].req.exclusive && !st.leases[i].req.policy.Exclusive?
  {
    ReachableInv(safe, st);
    assert LeaseRow(st.sessions, st.leases[i]);
    assert Neighbours(safe, st.leases[i], st.leases[j]) && Neighbours(safe, st.leases[j], st.leases[i]);
  }

  /** A Desktop that starts or is over owns nothing; a pinned lease sits nowhere but
      on its reserved Desktop. */
  lemma OwnersArePlaced(safe: set<string>, st: Pool, id: nat)
    requires Reachable(safe, st) && id in st.leases && st.leases[id].state.Holds()
    ensures
      var l := st.leases[id];
      && l.session.Some? && l.session.value in st.sessions
      && !st.sessions[l.session.value].state.Starting? && !st.sessions[l.session.value].state.Over()
      && (l.req.pin != 0 ==>
            && l.req.pin in st.reservations && st.reservations[l.req.pin].lease == Some(id)
            && l.session.value == l.req.pinSession == st.reservations[l.req.pin].session)
  {
    ReachableInv(safe, st);
    assert LeaseRow(st.sessions, st.leases[id]);
    if st.leases[id].req.pin != 0 {
      PinTarget(st.sessions, st.leases, st.reservations, id);
    }
  }

  /** Live automatic reservations of one Desktop generation share key and expiry. */
  lemma OneAutoCohort(safe: set<string>, st: Pool, a: nat, b: nat)
    requires Reachable(safe, st) && a in st.reservations && b in st.reservations
    requires st.reservations[a].state.Live() && st.reservations[b].state.Live()
    requires st.reservations[a].key.Auto? && st.reservations[b].key.Auto?
    requires st.reservations[a].session == st.reservations[b].session
    requires st.reservations[a].generation == st.reservations[b].generation
    ensures st.reservations[a].key == st.reservations[b].key && st.reservations[a].expires == st.reservations[b].expires
  {
    ReachableInv(safe, st);
    if a != b {
      assert CohortPair(st.reservations[a], st.reservations[b]);
    }
  }

  // ----- what a whole run remembers -----

  lemma ProgressHistory(safe: set<string>, target: int, may: May, st: Pool, su: Pool)
    requires Progress(safe, target, may, st, su)
    ensures Inv(safe, su) && Evolves(st, su) && Owned(st, su)
  {
  }

  lemma SelfHistory(st: Pool)
    ensures Evolves(st, st) && Owned(st, st)
  {
  }

  /** Finished leases and Desktops stay so, owners keep their slot until the host
      confirms, waves are frozen, over whole runs. */
  lemma {:induction false} RunHistory(safe: set<string>, st: Pool, es: seq<Event>)
    requires Inv(safe, st) && FairRun(safe, st, es)
    ensures Evolves(st, Run(safe, st, es)) && Owned(st, Run(safe, st, es))
    decreases |es|
  {
    hide Inv, Next, Fair, Licence, Progress, Evolves, Owned;
    if es == [] {
      SelfHistory(st);
    } else {
      var su := Next(safe, st, es[0]);
      StepProgress(safe, st, es[0]);
      ProgressHistory(safe, es[0].cfg.target, Licence(st, es[0]), st, su);
      RunHistory(safe, su, es[1..]);
      EvolvesTransitive(st, su, Run(safe, su, es[1..]));
      OwnedTransitive(st, su, Run(safe, su, es[1..]));
    }
  }

  /** Terminal lease states are absorbing, over whole runs. */
  lemma TerminalIsForever(safe: set<string>, st: Pool, es: seq<Event>, id: nat)
    requires Reachable(safe, st) && FairRun(safe, st, es)
    requires id in st.leases && st.leases[id].state.Terminal()
    ensures id in Run(safe, st, es).leases && Run(safe, st, es).leases[id].state == st.leases[id].state
  {
    hide Reachable, Inv, Run, FairRun, Owned;
    ReachableInv(safe, st);
    RunHistory(safe, st, es);
    assert LeaseEvolves(st.leases[id], Run(safe, st, es).leases[id]);
  }

  // ----- admission -----

  ghost predicate TargetsWithin(es: seq<Event>, cap: int) {
    forall i :: 0 <= i < |es| ==> es[i].cfg.target <= cap
  }

  lemma ProgressAdmits(safe: set<string>, target: int, may: May, st: Pool, su: Pool)
    requires Progress(safe, target, may, st, su)
    ensures Admits(target, st, su)
  {
  }

  /** A run admits no more projects than there were, or than its largest target. */
  lemma {:induction false} RunAdmits(safe: set<string>, st: Pool, es: seq<Event>, cap: int)
    requires Inv(safe, st) && FairRun(safe, st, es) && TargetsWithin(es, cap)
    ensures Admits(cap, st, Run(safe, st, es))
    decreases |es|
  {
    hide Inv, Next, Fair, Licence, Progress, Admitted;
    if es != [] {
      var su := Next(safe, st, es[0]);
      StepProgress(safe, st, es[0]);
      ProgressInv(safe, es[0].cfg.target, Licence(st, es[0]), st, su);
      ProgressAdmits(safe, es[0].cfg.target, Licence(st, es[0]), st, su);
      RunAdmits(safe, su, es[1..], cap);
    }
  }

  /** While the target is not lowered, it bounds the admitted projects. */
  lemma AdmissionCap(safe: set<string>, es: seq<Event>, cap: nat)
    requires FairRun(safe, EMPTY_POOL, es) && TargetsWithin(es, cap)
    ensures
      var su := Run(safe, EMPTY_POOL, es);
      |Admitted(su.leases, su.reservations)| <= cap
  {
    EmptyInv(safe);
    assert Admitted(EMPTY_POOL.leases, EMPTY_POOL.reservations) == {};
    hide Inv, Next, Run, FairRun, Admitted;
    RunAdmits(safe, EMPTY_POOL, es, cap);
  }
}
