/** What a step that grants no solve permit may do between its two states. The
    relation composes, so it also describes whole transactions and runs of them. */
module PoolCalm {
  import opened PoolRows
  import opened PoolInvariant
  import opened PoolSettle

  // ----- history: what a later state remembers of an earlier one -----

  /** A lease keeps its request; a finished lease keeps its end state and place. */
  predicate LeaseEvolves(l: Lease, m: Lease) {
    m.req == l.req && (l.state.Terminal() ==> m.state == l.state && SamePlace(l, m))
  }

  predicate SessionEvolves(x: Session, y: Session) {
    && y.slots == x.slots && y.generation == x.generation && y.allocation == x.allocation
    && x.wave <= y.wave && (x.state.Over() ==> y.state.Over())
    && (x.started.Some? ==> y.started.Some?) && (y.state.Starting? ==> x.state.Starting?)
  }

  predicate ReservationEvolves(r: Reservation, q: Reservation) {
    && q.(state := r.state, lease := r.lease) == r
    && (r.lease.Some? ==> q.lease == r.lease)
    && (!r.state.Live() ==> q.state == r.state)
  }

  /** The lease was granted wave `g` of Desktop `s`. */
  predicate InWave(l: Lease, s: nat, g: nat) {
    l.session == Some(s) && l.permit == Some(g)
  }

  function Wave(ls: Leases, s: nat, g: nat): set<nat> {
    set id | id in ls && InWave(ls[id], s, g)
  }

  /** Wave `g` of a Desktop that lasts has been granted already. */
  predicate PastWave(ss: Sessions, ts: Sessions, s: nat, g: nat) {
    s in ss && s in ts && g <= ss[s].wave && !ts[s].state.Over()
  }

  /** No lease joins a wave after it was granted; none leaves it while the Desktop lasts. */
  ghost predicate WavesFrozen(st: Pool, su: Pool) {
    forall id, s, g :: id in su.leases && PastWave(st.sessions, su.sessions, s, g) ==>
      (InWave(su.leases[id], s, g) <==> id in st.leases && InWave(st.leases[id], s, g))
  }

  ghost predicate Evolves(st: Pool, su: Pool) {
    && (forall id :: id in st.leases ==> id in su.leases && LeaseEvolves(st.leases[id], su.leases[id]))
    && (forall s :: s in st.sessions ==> s in su.sessions && SessionEvolves(st.sessions[s], su.sessions[s]))
    && (forall r :: r in st.reservations ==>
          r in su.reservations && ReservationEvolves(st.reservations[r], su.reservations[r]))
    && WavesFrozen(st, su)
  }

  lemma EvolvesTransitive(st: Pool, su: Pool, sv: Pool)
    requires Evolves(st, su) && Evolves(su, sv)
    ensures Evolves(st, sv)
  {
    forall id, s, g | id in sv.leases && PastWave(st.sessions, sv.sessions, s, g)
      ensures InWave(sv.leases[id], s, g) <==> id in st.leases && InWave(st.leases[id], s, g)
    {
      assert PastWave(st.sessions, su.sessions, s, g) && PastWave(su.sessions, sv.sessions, s, g);
      if id in su.leases {
        assert InWave(su.leases[id], s, g) <==> id in st.leases && InWave(st.leases[id], s, g);
      }
    }
  }

  // ----- ownership -----

  /** What one transaction may do that most may not: clear or re-arm the reuse
      barrier of `clears`, let the leases `attaches` in, finish the releases `acks`, end
      the Desktops `closes` with their owners requeued, wake the Desktops `wakes` and
      lift the quarantine of `pardons`. */
  datatype May = May(clears: set<nat>, attaches: set<nat>, acks: set<nat>,
                     closes: set<nat>, wakes: set<nat>, pardons: set<nat>)

  const NOTHING := May({}, {}, {}, {}, {}, {})

  function Both(a: May, b: May): May {
    May(a.clears + b.clears, a.attaches + b.attaches, a.acks + b.acks,
        a.closes + b.closes, a.wakes + b.wakes, a.pardons + b.pardons)
  }

  /** A lease that owns a project keeps its slot until the host confirmed the
      close, it failed, or the Desktop is over; a closing one never solves again. */
  predicate OwnershipKept(ts: Sessions, l: Lease, m: Lease) {
    OwnsProject(l) ==>
      || Gone(ts, l)
      || (&& m.session == l.session && m.slot == l.slot
          && (OwnsProject(m) || m.state.Released? || m.state.Failed?)
          && (l.state.Releasing? ==> !m.state.Attaching? && !m.state.Active? && m.marker == l.marker))
  }

  /** While a project owner stays on a Desktop, its seal stays. */
  predicate SealKept(ss: Sessions, ts: Sessions, l: Lease, m: Lease) {
    (OwnsProject(l) && OwnsProject(m) && l.session.Some? && m.session == l.session
     && l.session.value in ss && l.session.value in ts && ss[l.session.value].isSealed) ==>
      ts[l.session.value].isSealed || ts[l.session.value].state.Over()
  }

  ghost predicate Owned(st: Pool, su: Pool) {
    forall id :: id in st.leases && id in su.leases ==>
      && OwnershipKept(su.sessions, st.leases[id], su.leases[id])
      && SealKept(st.sessions, su.sessions, st.leases[id], su.leases[id])
  }

  /** No other lease starts to attach, and no other release is confirmed. */
  ghost predicate Quiet(may: May, st: Pool, su: Pool) {
    && (forall id :: id in su.leases && su.leases[id].state.Attaching? && id !in may.attaches ==>
          id in st.leases && st.leases[id].state.Attaching?)
    && (forall id :: id in su.leases && su.leases[id].state.Released? && id !in may.acks ==>
          id in st.leases && st.leases[id].state.Released?)
  }

  // ----- the lifecycle of a lease -----

  /** The successor states that need a licence: a confirmed release, and the queue after
      the Desktop was closed. */
  predicate Licensed(may: May, id: nat, l: Lease, m: Lease) {
    (m.state.Released? && id in may.acks)
    || (m.state.Queued? && l.session.Some? && l.session.value in may.closes)
  }

  /** What a lease may become. */
  predicate Successor(may: May, id: nat, l: Lease, m: Lease) {
    && (l.state.Attaching? ==>
          m.state.Attaching? || m.state.Active? || m.state.Releasing? || m.state.Failed? || Licensed(may, id, l, m))
    && (l.state.Active? ==>
          m.state.Active? || m.state.Releasing? || m.state.Failed? || Licensed(may, id, l, m))
    && (l.state.Releasing? ==> m.state.Releasing? || m.state.Failed? || Licensed(may, id, l, m))
    && (l.state.Leased? ==>
          || m.state.Leased? || m.state.Active? || m.state.Releasing?
          || m.state.Failed? || m.state.Cancelled? || m.state.Expired? || Licensed(may, id, l, m))
    && ((l.state.Queued? || l.state.Offered?) && l.req.protocol >= 2 ==>
          || m.state.Queued? || m.state.Offered? || m.state.Failed? || m.state.Cancelled? || m.state.Expired?
          || id in may.attaches)
    && ((OwnsProject(l) || l.state.Leased?) && (OwnsProject(m) || m.state.Leased?) ==> m.session == l.session)
  }

  ghost predicate Lifecycle(may: May, st: Pool, su: Pool) {
    forall id :: id in st.leases && id in su.leases ==> Successor(may, id, st.leases[id], su.leases[id])
  }

  lemma LifecycleTransitive(may: May, more: May, st: Pool, su: Pool, sv: Pool)
    requires Lifecycle(may, st, su) && Lifecycle(more, su, sv) && Evolves(st, su) && Evolves(su, sv)
    requires may.closes == {}
    ensures Lifecycle(Both(may, more), st, sv)
  {
    forall id | id in st.leases && id in sv.leases
      ensures Successor(Both(may, more), id, st.leases[id], sv.leases[id])
    {
      assert LeaseEvolves(st.leases[id], su.leases[id]) && LeaseEvolves(su.leases[id], sv.leases[id]);
      assert Successor(may, id, st.leases[id], su.leases[id]);
      assert Successor(more, id, su.leases[id], sv.leases[id]);
    }
  }

  lemma OwnedTransitive(st: Pool, su: Pool, sv: Pool)
    requires Owned(st, su) && Owned(su, sv) && Evolves(st, su) && Evolves(su, sv)
    ensures Owned(st, sv)
  {
    forall id | id in st.leases && id in sv.leases
      ensures OwnershipKept(sv.sessions, st.leases[id], sv.leases[id])
      ensures SealKept(st.sessions, sv.sessions, st.leases[id], sv.leases[id])
    {
      assert OwnershipKept(su.sessions, st.leases[id], su.leases[id]);
      assert SealKept(st.sessions, su.sessions, st.leases[id], su.leases[id]);
      assert SealKept(su.sessions, sv.sessions, su.leases[id], sv.leases[id]);
      assert OwnershipKept(sv.sessions, su.leases[id], sv.leases[id]);
      assert LeaseEvolves(su.leases[id], sv.leases[id]);
      if st.leases[id].session.Some? && st.leases[id].session.value in su.sessions {
        var s := st.leases[id].session.value;
        assert SessionEvolves(su.sessions[s], sv.sessions[s]);
      }
    }
  }

  // ----- sealed batches -----

  predicate Waits(l: Lease) {
    l.state.Active? && l.permit.None?
  }

  /** Active leases on `s` that hold no permit yet. */
  function Waiting(ls: Leases, s: nat): set<nat> {
    set id | id in ls && Holder(ls[id], s) && Waits(ls[id])
  }

  predicate LiveOn(r: Reservation, s: nat) {
    r.session == s && r.state.Live()
  }

  /** Nothing entered Desktop `s`. */
  ghost predicate NoEntry(st: Pool, su: Pool, s: nat) {
    && Holders(su.leases, s) <= Holders(st.leases, s)
    && Waiting(su.leases, s) <= Waiting(st.leases, s)
    && (forall r :: r in su.reservations && LiveOn(su.reservations[r], s) ==>
          r in st.reservations && LiveOn(st.reservations[r], s))
  }

  /** The Desktop starts no wave and is not sealed; if it stays sealed it stays closed. */
  ghost predicate BatchClosed(st: Pool, su: Pool, s: nat)
    requires s in st.sessions && s in su.sessions
  {
    && su.sessions[s].wave == st.sessions[s].wave
    && (su.sessions[s].isSealed ==> st.sessions[s].isSealed && NoEntry(st, su, s))
  }

  // ----- admission -----

  datatype Admission = ForTask(task: nat) | ForLease(lease: nat)

  function AdmissionKey(id: nat, l: Lease): Admission {
    if l.req.task > 0 then ForTask(l.req.task) else ForLease(id)
  }

  /** The distinct task or lease keys that occupy or hold a slot anywhere. */
  function Admitted(ls: Leases, rs: Reservations): set<Admission> {
    (set id | id in ls && ls[id].state.Holds() :: AdmissionKey(id, ls[id]))
    + (set r | r in rs && rs[r].state.Held() :: ForTask(rs[r].task))
  }

  ghost predicate Admits(target: int, st: Pool, su: Pool) {
    |Admitted(su.leases, su.reservations)| <= |Admitted(st.leases, st.reservations)|
    || |Admitted(su.leases, su.reservations)| <= target
  }

  // ----- the reuse barrier -----

  /** Outside `loose`, an armed barrier stays armed as it was, and nobody gets in. */
  ghost predicate BarrierHolds(loose: set<nat>, st: Pool, su: Pool) {
    forall s :: s in st.sessions && s !in loose && st.sessions[s].blockedAt.Some? ==>
      s in su.sessions && su.sessions[s].blockedAt == st.sessions[s].blockedAt
      && Holders(su.leases, s) <= Holders(st.leases, s)
  }

  /** A Desktop becomes assignable only from assignable, or by its first registration. */
  predicate RestSession(x: Session, y: Session) {
    y.state.Assignable() ==> x.state.Assignable() || x.started.None?
  }

  predicate HeldSession(x: Session, y: Session) {
    !x.quarantine.NoQuarantine? ==> !y.quarantine.NoQuarantine?
  }

  /** Outside the licence no other Desktop wakes up, and no quarantine is lifted. */
  ghost predicate Rests(may: May, st: Pool, su: Pool) {
    forall s :: s in st.sessions && s in su.sessions ==>
      && (s !in may.wakes ==> RestSession(st.sessions[s], su.sessions[s]))
      && (s !in may.pardons ==> HeldSession(st.sessions[s], su.sessions[s]))
  }

  lemma RestsTransitive(may: May, more: May, st: Pool, su: Pool, sv: Pool)
    requires Rests(may, st, su) && Rests(more, su, sv) && Evolves(st, su)
    ensures Rests(Both(may, more), st, sv)
  {
    forall s | s in st.sessions && s in sv.sessions
      ensures s !in Both(may, more).wakes ==> RestSession(st.sessions[s], sv.sessions[s])
      ensures s !in Both(may, more).pardons ==> HeldSession(st.sessions[s], sv.sessions[s])
    {
      assert SessionEvolves(st.sessions[s], su.sessions[s]);
    }
  }

  predicate BehindBarrier(ss: Sessions, l: Lease) {
    l.state.Releasing? ==> l.session.Some? && l.session.value in ss && ss[l.session.value].blockedAt.Some?
  }

  /** Every Desktop whose host is closing a project has its reuse barrier armed. */
  ghost predicate Barred(st: Pool) {
    forall id :: id in st.leases ==> BehindBarrier(st.sessions, st.leases[id])
  }

  /** A lease that starts to release does so behind a barrier. */
  ghost predicate Arms(st: Pool, su: Pool) {
    forall id :: id in su.leases && su.leases[id].state.Releasing? ==>
      || (id in st.leases && st.leases[id].state.Releasing? && st.leases[id].session == su.leases[id].session)
      || BehindBarrier(su.sessions, su.leases[id])
  }

  lemma ArmsTransitive(may: May, more: May, st: Pool, su: Pool, sv: Pool)
    requires Arms(st, su) && Arms(su, sv) && BarrierHolds(more.clears, su, sv) && more.clears == {}
    ensures Arms(st, sv)
  {
    forall id | id in sv.leases && sv.leases[id].state.Releasing?
      ensures
        || (id in st.leases && st.leases[id].state.Releasing? && st.leases[id].session == sv.leases[id].session)
        || BehindBarrier(sv.sessions, sv.leases[id])
    {
      if !BehindBarrier(sv.sessions, sv.leases[id]) {
        assert su.leases[id].session == sv.leases[id].session;
      }
    }
  }

  /** No wave starts, no batch is sealed, and a Desktop that is new is unsealed. */
  ghost predicate NoWave(st: Pool, su: Pool) {
    && (forall s :: s in st.sessions && s in su.sessions ==> BatchClosed(st, su, s))
    && (forall s :: s in su.sessions && s !in st.sessions ==> !su.sessions[s].isSealed)
  }

  ghost predicate Calm(target: int, may: May, st: Pool, su: Pool) {
    && Evolves(st, su) && Owned(st, su) && Quiet(may, st, su)
    && Lifecycle(may, st, su) && Rests(may, st, su)
    && NoWave(st, su)
    && Admits(target, st, su)
    && BarrierHolds(may.clears, st, su)
  }

  lemma NoWaveTransitive(st: Pool, su: Pool, sv: Pool)
    requires NoWave(st, su) && NoWave(su, sv) && st.sessions.Keys <= su.sessions.Keys
    ensures NoWave(st, sv)
  {
    hide Holders, Waiting;
    forall s | s in su.sessions && s in sv.sessions
      ensures s in st.sessions ==> BatchClosed(st, sv, s)
      ensures s !in st.sessions ==> !sv.sessions[s].isSealed
    {
      assert BatchClosed(su, sv, s);
      assert s in st.sessions ==> BatchClosed(st, su, s);
    }
  }

  lemma QuietTransitive(may: May, more: May, st: Pool, su: Pool, sv: Pool)
    requires Quiet(may, st, su) && Quiet(more, su, sv)
    ensures Quiet(Both(may, more), st, sv)
  {
  }

  lemma BarrierTransitive(loose: set<nat>, more: set<nat>, st: Pool, su: Pool, sv: Pool)
    requires BarrierHolds(loose, st, su) && BarrierHolds(more, su, sv)
    ensures BarrierHolds(loose + more, st, sv)
  {
  }

  lemma AdmitsTransitive(target: int, st: Pool, su: Pool, sv: Pool)
    requires Admits(target, st, su) && Admits(target, su, sv)
    ensures Admits(target, st, sv)
  {
  }

  lemma EvolvesKeys(st: Pool, su: Pool)
    requires Evolves(st, su)
    ensures st.sessions.Keys <= su.sessions.Keys && st.leases.Keys <= su.leases.Keys
  {
  }

  lemma CalmTransitive(target: int, may: May, more: May, st: Pool, su: Pool, sv: Pool)
    requires Calm(target, may, st, su) && Calm(target, more, su, sv) && may.closes == {}
    ensures Calm(target, Both(may, more), st, sv)
  {
    hide Evolves, Owned, Quiet, Lifecycle, Rests, NoWave, Admits, BarrierHolds;
    LifecycleTransitive(may, more, st, su, sv);
    RestsTransitive(may, more, st, su, sv);
    EvolvesKeys(st, su);
    EvolvesTransitive(st, su, sv);
    OwnedTransitive(st, su, sv);
    QuietTransitive(may, more, st, su, sv);
    NoWaveTransitive(st, su, sv);
    AdmitsTransitive(target, st, su, sv);
    BarrierTransitive(may.clears, more.clears, st, su, sv);
  }

  /** A calm step from a good state to a good state. */
  ghost predicate Kept(safe: set<string>, target: int, may: May, st: Pool, su: Pool) {
    Inv(safe, su) && Calm(target, may, st, su) && Arms(st, su) && (Barred(st) ==> Barred(su))
  }

  lemma KeptTransitive(safe: set<string>, target: int, may: May, more: May, st: Pool, su: Pool, sv: Pool)
    requires Kept(safe, target, may, st, su) && Kept(safe, target, more, su, sv)
    requires may.closes == {} && more.clears == {}
    ensures Kept(safe, target, Both(may, more), st, sv)
  {
    assert BarrierHolds(more.clears, su, sv) by { hide Inv, Barred, Arms; }
    hide Inv, Calm, Barred, Arms, BarrierHolds;
    CalmTransitive(target, may, more, st, su, sv);
    ArmsTransitive(may, more, st, su, sv);
  }

  /** A quiet step after a step that may do more. */
  lemma KeptThen(safe: set<string>, target: int, may: May, st: Pool, su: Pool, sv: Pool)
    requires Kept(safe, target, may, st, su) && Kept(safe, target, NOTHING, su, sv) && may.closes == {}
    ensures Kept(safe, target, may, st, sv)
  {
    hide Kept;
    KeptTransitive(safe, target, may, NOTHING, st, su, sv);
    assert Both(may, NOTHING) == may;
  }

  lemma KeptChain(safe: set<string>, target: int, st: Pool, su: Pool, sv: Pool)
    requires Kept(safe, target, NOTHING, st, su) && Kept(safe, target, NOTHING, su, sv)
    ensures Kept(safe, target, NOTHING, st, sv)
  {
    hide Kept;
    KeptThen(safe, target, NOTHING, st, su, sv);
  }

  // ----- steps that only give ownership up -----

  /** Nobody enters any Desktop, and a seal is cleared only from an empty one. */
  ghost predicate Shrinks(st: Pool, su: Pool) {
    su.sessions.Keys == st.sessions.Keys &&
    forall s :: s in st.sessions ==>
      && Holders(su.leases, s) <= Holders(st.leases, s)
      && (st.sessions[s].isSealed && !su.sessions[s].isSealed ==> Holders(su.leases, s) == {})
  }

  /** A calm step that lets nobody in. */
  ghost predicate Ebbs(safe: set<string>, target: int, st: Pool, su: Pool) {
    Kept(safe, target, NOTHING, st, su) && Shrinks(st, su)
  }

  lemma ShrinksTransitive(st: Pool, su: Pool, sv: Pool)
    requires Shrinks(st, su) && Shrinks(su, sv)
    ensures Shrinks(st, sv)
  {
    forall s | s in st.sessions
      ensures Holders(sv.leases, s) <= Holders(st.leases, s)
      ensures st.sessions[s].isSealed && !sv.sessions[s].isSealed ==> Holders(sv.leases, s) == {}
    {
      assert Holders(su.leases, s) <= Holders(st.leases, s);
      assert Holders(sv.leases, s) <= Holders(su.leases, s);
    }
  }

  lemma EbbChain(safe: set<string>, target: int, st: Pool, su: Pool, sv: Pool)
    requires Ebbs(safe, target, st, su) && Ebbs(safe, target, su, sv)
    ensures Ebbs(safe, target, st, sv)
  {
    hide Kept, Shrinks;
    KeptChain(safe, target, st, su, sv);
    ShrinksTransitive(st, su, sv);
  }

  // ----- settling moves are calm -----

  /** An armed barrier is kept, and a lease that starts releasing arms it. */
  predicate FirmSession(x: Session, y: Session) {
    x.blockedAt.Some? ==> y.blockedAt == x.blockedAt
  }

  predicate FirmLease(ts: Sessions, l: Lease, m: Lease) {
    m.state.Releasing? ==> (l.state.Releasing? && m.session == l.session) || BehindBarrier(ts, m)
  }

  ghost predicate FirmExcept(may: May, st: Pool, su: Pool) {
    forall s :: s in st.sessions && s in su.sessions ==>
      && (s !in may.clears ==> FirmSession(st.sessions[s], su.sessions[s]))
      && (s !in may.wakes ==> RestSession(st.sessions[s], su.sessions[s]))
      && (s !in may.pardons ==> HeldSession(st.sessions[s], su.sessions[s]))
  }

  ghost predicate FirmSessions(st: Pool, su: Pool) {
    FirmExcept(NOTHING, st, su)
  }

  /** Only the listed Desktops end with owners on them. */
  ghost predicate EndsEmpty(closes: set<nat>, st: Pool, su: Pool) {
    forall s :: s in st.sessions && s in su.sessions && su.sessions[s].state.Over() && s !in closes ==>
      st.sessions[s].state.Over() || NoHolder(st.leases, s)
  }

  ghost predicate Firm(st: Pool, su: Pool) {
    && FirmSessions(st, su)
    && (forall id :: id in st.leases && id in su.leases ==>
          FirmLease(su.sessions, st.leases[id], su.leases[id]))
  }

  lemma SettleEvolves(safe: set<string>, st: Pool, su: Pool)
    requires Inv(safe, st) && Settles(st, su)
    ensures Evolves(st, su)
  {
    forall id, s, g | id in su.leases && PastWave(st.sessions, su.sessions, s, g)
      ensures InWave(su.leases[id], s, g) <==> id in st.leases && InWave(st.leases[id], s, g)
    {
      assert LeaseMove(st.leases[id], su.leases[id], Gone(su.sessions, st.leases[id]));
      assert LeaseRow(st.sessions, st.leases[id]);
    }
    forall id | id in st.leases
      ensures id in su.leases && LeaseEvolves(st.leases[id], su.leases[id])
    {
      assert LeaseMove(st.leases[id], su.leases[id], Gone(su.sessions, st.leases[id]));
    }
    forall s | s in st.sessions
      ensures s in su.sessions && SessionEvolves(st.sessions[s], su.sessions[s])
    {
      assert SessionMove(st.sessions[s], su.sessions[s], NoHolder(su.leases, s));
    }
    forall r | r in st.reservations
      ensures r in su.reservations && ReservationEvolves(st.reservations[r], su.reservations[r])
    {
      assert ReservationMove(st.reservations[r], su.reservations[r],
                             Requeued(st.leases, su.leases, st.reservations[r].lease));
    }
  }

  lemma SettleWaiting(ss: Sessions, ls: Leases, ts: Sessions, ms: Leases, s: nat)
    requires LeaseRows(ss, ls) && LeasesSettle(ls, ms, ts) && s in ss && ss[s].isSealed
    ensures Waiting(ms, s) <= Waiting(ls, s)
  {
    forall id | id in Waiting(ms, s)
      ensures id in Waiting(ls, s)
    {
      assert LeaseMove(ls[id], ms[id], Gone(ts, ls[id])) && LeaseRow(ss, ls[id]);
    }
  }

  lemma SettleBatch(safe: set<string>, st: Pool, su: Pool, s: nat)
    requires LeaseRows(st.sessions, st.leases) && Settles(st, su) && s in st.sessions
    ensures BatchClosed(st, su, s)
  {
    assert SessionMove(st.sessions[s], su.sessions[s], NoHolder(su.leases, s));
    if su.sessions[s].isSealed {
      SettleHolders(st.leases, su.leases, su.sessions, s);
      SettleWaiting(st.sessions, st.leases, su.sessions, su.leases, s);
      forall r | r in su.reservations && LiveOn(su.reservations[r], s)
        ensures r in st.reservations && LiveOn(st.reservations[r], s)
      {
        assert ReservationMove(st.reservations[r], su.reservations[r],
                               Requeued(st.leases, su.leases, st.reservations[r].lease));
      }
    }
  }

  lemma HolderWasAdmitted(ls: Leases, ms: Leases, ts: Sessions, rs: Reservations, id: nat)
    requires LeasesSettle(ls, ms, ts) && id in ms && ms[id].state.Holds()
    ensures AdmissionKey(id, ms[id]) in Admitted(ls, rs)
  {
    assert LeaseMove(ls[id], ms[id], Gone(ts, ls[id]));
    assert ls[id].state.Holds() && AdmissionKey(id, ms[id]) == AdmissionKey(id, ls[id]);
  }

  lemma SettleAdmits(target: int, st: Pool, su: Pool)
    requires ReservationRows(st.sessions, st.leases, st.reservations) && Settles(st, su)
    ensures Admits(target, st, su)
  {
    hide LeasesSettle, ReservationsSettle, SessionsSettle, ReservationRows;
    var before := Admitted(st.leases, st.reservations);
    var after := Admitted(su.leases, su.reservations);
    forall k | k in after
      ensures k in before
    {
      if id :| id in su.leases && su.leases[id].state.Holds() && k == AdmissionKey(id, su.leases[id]) {
        HolderWasAdmitted(st.leases, su.leases, su.sessions, st.reservations, id);
      } else {
        var r :| r in su.reservations && su.reservations[r].state.Held() && k == ForTask(su.reservations[r].task);
        HeldWasAdmitted(st, su, r);
      }
    }
    Subset(after, before);
  }

  lemma HeldWasAdmitted(st: Pool, su: Pool, r: nat)
    requires ReservationRows(st.sessions, st.leases, st.reservations) && Settles(st, su)
    requires r in su.reservations && su.reservations[r].state.Held()
    ensures ForTask(su.reservations[r].task) in Admitted(st.leases, st.reservations)
  {
    var a := st.reservations[r];
    assert ReservationMove(a, su.reservations[r], Requeued(st.leases, su.leases, a.lease));
    assert ReservationRow(st.sessions, st.leases, r, a);
    if !a.state.Held() {
      var id := a.lease.value;
      assert st.leases[id].state.Holds() && AdmissionKey(id, st.leases[id]) == ForTask(a.task);
    }
  }

  /** A settling move is calm when it keeps armed barriers. */
  lemma SettleCalm(safe: set<string>, target: int, may: May, st: Pool, su: Pool)
    requires Inv(safe, st) && Settles(st, su) && FirmExcept(may, st, su) && Quiet(may, st, su)
    requires EndsEmpty(may.closes, st, su)
    ensures Inv(safe, su) && Calm(target, may, st, su) && Shrinks(st, su)
  {
    hide LeaseRows, Sharing, ReservationRows, Pins, Cohorts, Capacity, WaveOrder, SessionRows;
    hide Evolves, Owned, Quiet, Lifecycle, Rests, BatchClosed, Admits, BarrierHolds, Shrinks, FirmExcept, EndsEmpty;
    SettleOwned(st, su);
    SettleLifecycle(may, st, su);
    SettleRests(may, st, su);
    SettleKeepsInv(safe, st, su);
    SettleEvolves(safe, st, su);
    SettleAdmits(target, st, su);
    forall s | s in st.sessions
      ensures BatchClosed(st, su, s)
    {
      SettleBatch(safe, st, su, s);
    }
    SettleBarrier(may, st, su);
    SettleShrinks(st, su);
  }

  /** A firm settling move also keeps every releasing lease behind a barrier. */
  lemma SettleEbbs(safe: set<string>, target: int, st: Pool, su: Pool)
    requires Inv(safe, st) && Settles(st, su) && Firm(st, su) && Quiet(NOTHING, st, su) && EndsEmpty({}, st, su)
    ensures Ebbs(safe, target, st, su)
  {
    hide Quiet, EndsEmpty, FirmExcept;
    assert FirmSessions(st, su);
    assert Arms(st, su) by { FirmArms(st, su); }
    if Barred(st) {
      FirmBarred(st, su);
    }
    SettleKept(safe, target, NOTHING, st, su);
  }

  lemma SettleKept(safe: set<string>, target: int, may: May, st: Pool, su: Pool)
    requires Inv(safe, st) && Settles(st, su) && FirmExcept(may, st, su) && Quiet(may, st, su)
    requires EndsEmpty(may.closes, st, su) && Arms(st, su) && (Barred(st) ==> Barred(su))
    ensures Kept(safe, target, may, st, su) && Shrinks(st, su)
  {
    hide Inv, Calm, Shrinks, Quiet, Barred, Arms, EndsEmpty, FirmExcept, Settles;
    SettleCalm(safe, target, may, st, su);
  }

  lemma FirmArms(st: Pool, su: Pool)
    requires Firm(st, su) && su.leases.Keys <= st.leases.Keys
    ensures Arms(st, su)
  {
    forall id | id in su.leases && su.leases[id].state.Releasing?
      ensures
        || (id in st.leases && st.leases[id].state.Releasing? && st.leases[id].session == su.leases[id].session)
        || BehindBarrier(su.sessions, su.leases[id])
    {
      assert FirmLease(su.sessions, st.leases[id], su.leases[id]);
    }
  }

  lemma SettleRests(may: May, st: Pool, su: Pool)
    requires FirmExcept(may, st, su)
    ensures Rests(may, st, su)
  {
  }

  lemma SettleSuccessor(may: May, id: nat, l: Lease, m: Lease, gone: bool)
    requires LeaseMove(l, m, gone)
    requires m.state.Attaching? && !l.state.Attaching? ==> id in may.attaches
    requires m.state.Released? && !l.state.Released? ==> id in may.acks
    requires gone && l.state.Holds() ==> l.session.Some? && l.session.value in may.closes
    ensures Successor(may, id, l, m)
  {
  }

  lemma SettleLifecycle(may: May, st: Pool, su: Pool)
    requires LeaseRows(st.sessions, st.leases) && Settles(st, su) && Quiet(may, st, su)
    requires EndsEmpty(may.closes, st, su)
    ensures Lifecycle(may, st, su)
  {
    hide LeaseMove;
    forall id | id in st.leases && id in su.leases
      ensures Successor(may, id, st.leases[id], su.leases[id])
    {
      var l := st.leases[id];
      assert LeaseRow(st.sessions, l) && LeaseMove(l, su.leases[id], Gone(su.sessions, l));
      if Gone(su.sessions, l) && l.state.Holds() {
        assert Holder(l, l.session.value);
      }
      SettleSuccessor(may, id, l, su.leases[id], Gone(su.sessions, l));
    }
  }

  lemma SettleOwned(st: Pool, su: Pool)
    requires Settles(st, su)
    ensures Owned(st, su)
  {
    forall id | id in st.leases && id in su.leases
      ensures OwnershipKept(su.sessions, st.leases[id], su.leases[id])
      ensures SealKept(st.sessions, su.sessions, st.leases[id], su.leases[id])
    {
      assert LeaseMove(st.leases[id], su.leases[id], Gone(su.sessions, st.leases[id]));
      if su.leases[id].session.Some? && su.leases[id].session.value in st.sessions {
        var s := su.leases[id].session.value;
        assert SessionMove(st.sessions[s], su.sessions[s], NoHolder(su.leases, s));
        assert OwnsProject(su.leases[id]) ==> Holder(su.leases[id], s);
      }
    }
  }

  lemma SettleShrinks(st: Pool, su: Pool)
    requires Settles(st, su)
    ensures Shrinks(st, su)
  {
    forall s | s in st.sessions
      ensures Holders(su.leases, s) <= Holders(st.leases, s)
      ensures st.sessions[s].isSealed && !su.sessions[s].isSealed ==> Holders(su.leases, s) == {}
    {
      SettleHolders(st.leases, su.leases, su.sessions, s);
      assert SessionMove(st.sessions[s], su.sessions[s], NoHolder(su.leases, s));
    }
  }

  lemma SettleBarrier(may: May, st: Pool, su: Pool)
    requires Settles(st, su) && FirmExcept(may, st, su)
    ensures BarrierHolds(may.clears, st, su)
  {
    forall s | s in st.sessions && s !in may.clears && st.sessions[s].blockedAt.Some?
      ensures su.sessions[s].blockedAt == st.sessions[s].blockedAt
      ensures Holders(su.leases, s) <= Holders(st.leases, s)
    {
      assert FirmSession(st.sessions[s], su.sessions[s]);
      SettleHolders(st.leases, su.leases, su.sessions, s);
    }
  }

  lemma FirmBarred(st: Pool, su: Pool)
    requires Firm(st, su) && Barred(st)
    requires su.leases.Keys <= st.leases.Keys && st.sessions.Keys <= su.sessions.Keys
    ensures Barred(su)
  {
    forall id | id in su.leases
      ensures BehindBarrier(su.sessions, su.leases[id])
    {
      assert BehindBarrier(st.sessions, st.leases[id]);
      assert FirmLease(su.sessions, st.leases[id], su.leases[id]);
    }
  }
}
