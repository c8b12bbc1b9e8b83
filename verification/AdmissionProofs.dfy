/** Lease requests and reservations keep the pool. */
module PoolAdmissionProofs {
  import opened PoolRows
  import opened PoolInvariant
  import opened PoolSettle
  import opened PoolCalm
  import opened PoolRefresh
  import opened PoolRefreshProofs
  import opened PoolSolve
  import opened PoolEntry
  import opened PoolEntryProofs
  import opened PoolCursor
  import opened PoolCursorProofs
  import opened PoolClient
  import opened PoolHostProofs

  // ----- request_lease -----

  lemma SupersedeEbbs(safe: set<string>, target: int, st: Pool, id: nat, archived: string)
    requires Inv(safe, st) && id in st.leases
    requires st.leases[id].state.Terminal() || st.leases[id].state.Queued? || st.leases[id].state.Offered?
    ensures Ebbs(safe, target, st, Supersede(st, id, archived))
    ensures Supersede(st, id, archived).reservations == st.reservations
  {
    hide Inv, Ebbs;
    var l := st.leases[id];
    if l.state.Terminal() {
      OneLeaseEbbs(safe, target, st, id, l.(key := archived));
    } else {
      var m := l.(key := archived, state := Expired, session := None, slot := 0);
      var su := st.(leases := st.leases[id := m]);
      OneLeaseEbbs(safe, target, st, id, m);
      if l.session.Some? {
        EbbsInv(safe, target, st, su);
        LeasedRegistered(safe, st, id);
        assert Registered(su, {l.session.value});
        RefreshSessionsEbbs(safe, target, su, {l.session.value});
        EbbChain(safe, target, st, su, RefreshSessions(su, {l.session.value}));
      }
    }
  }

  /** The pin belongs to the task of the request. */
  predicate PinFor(rs: Reservations, w: Wish, pin: Option<nat>) {
    pin.Some? ==> pin.value in rs && rs[pin.value].task == w.req.task
  }

  lemma InsertedKept(safe: set<string>, st: Pool, cfg: Config, w: Wish, pin: Option<nat>, now: int)
    requires Inv(safe, st) && PinFor(st.reservations, w, pin)
    ensures
      var r := Inserted(st, cfg, w, pin, now);
      r.Some? ==> Kept(safe, cfg.target, NOTHING, st, r.value.0)
  {
    hide Inv, Kept;
    var r := Inserted(st, cfg, w, pin, now);
    if r.Some? {
      AddLeaseKept(safe, cfg.target, st, NewLease(st, cfg, w, pin, now));
    }
  }

  lemma EnterKept(safe: set<string>, st: Pool, cfg: Config, w: Wish, pin: Option<nat>, now: int)
    requires Inv(safe, st) && PinFor(st.reservations, w, pin)
    ensures
      var r := Enter(st, cfg, w, pin, now);
      r.Some? ==> Kept(safe, cfg.target, NOTHING, st, r.value.0)
  {
    hide Inv, Calm, Barred, Arms, Shrinks, Inserted, Supersede;
    var same := WithKey(st.leases, w.key);
    if same == {} {
      InsertedKept(safe, st, cfg, w, pin, now);
    } else {
      var id := Least(same);
      if st.leases[id].token == w.token {
        EbbSelf(safe, cfg.target, st);
      } else if Replaceable(st, st.leases[id], now) {
        var su := Supersede(st, id, Archived(w.key, id));
        SupersedeEbbs(safe, cfg.target, st, id, Archived(w.key, id));
        InsertedKept(safe, su, cfg, w, pin, now);
        var r := Inserted(su, cfg, w, pin, now);
        if r.Some? {
          KeptChain(safe, cfg.target, st, su, r.value.0);
        }
      }
    }
  }

  lemma AdmitKept(safe: set<string>, st: Pool, su: Pool, cfg: Config, w: Wish, pin: Option<nat>, now: int)
    requires Inv(safe, st) && Kept(safe, cfg.target, NOTHING, st, su) && PinFor(su.reservations, w, pin)
    ensures Kept(safe, cfg.target, NOTHING, st, Admit(st, Enter(su, cfg, w, pin, now), cfg, now))
  {
    hide Inv, Calm, Barred, Arms, Shrinks, Enter, PlaceNamed;
    EbbSelf(safe, cfg.target, st);
    EnterKept(safe, su, cfg, w, pin, now);
    var r := Enter(su, cfg, w, pin, now);
    if r.Some? {
      KeptChain(safe, cfg.target, st, su, r.value.0);
      PlaceNamedKept(safe, r.value.0, cfg, r.value.1, now);
      KeptChain(safe, cfg.target, st, r.value.0, PlaceNamed(r.value.0, cfg, r.value.1, now));
    }
  }

  /** The server pins a request only to a reservation of the same task. */
  lemma AuthorityFor(st: Pool, cfg: Config, w: Wish, now: int)
    ensures Authorize(st, cfg, w, now).Pinned? ==> PinFor(st.reservations, w, Some(Authorize(st, cfg, w, now).id))
  {
    hide SameContract, Replays, TargetReady;
  }

  lemma RequestLeaseKept(safe: set<string>, st: Pool, cfg: Config, w: Wish, now: int)
    requires Inv(safe, st)
    ensures Kept(safe, cfg.target, NOTHING, st, RequestLease(st, cfg, w, now))
  {
    hide Inv, Calm, Barred, Arms, Shrinks, Enter, Admit, RefreshReservations, Authorize;
    EbbSelf(safe, cfg.target, st);
    var su := RefreshReservations(st, now);
    RefreshReservationsEbbs(safe, cfg.target, st, now);
    AuthorityFor(su, cfg, w, now);
    AdmitKept(safe, st, su, cfg, w, None, now);
    match Authorize(su, cfg, w, now)
    case Pinned(pin) => AdmitKept(safe, st, su, cfg, w, Some(pin), now);
    case _ =>
  }

  // ----- operator cohorts -----

  lemma DistinctInOrder(ids: set<nat>)
    ensures forall i, j :: 0 <= i < j < |InOrder(ids)| ==> InOrder(ids)[i] < InOrder(ids)[j]
  {
    forall i, j | 0 <= i < j < |InOrder(ids)|
      ensures InOrder(ids)[i] < InOrder(ids)[j]
    {
      InOrderAscends(ids, i, j);
    }
  }

  lemma CohortMayReserve(st: Pool, cfg: Config, r: Reservation, tasks: set<nat>)
    requires CohortAdmissible(st, cfg, r, InOrder(tasks)) && 0 !in tasks
    requires r.state.Reserved? && r.lease.None? && r.key.Operator?
    requires forall q :: q in st.reservations ==> st.reservations[q].key != r.key
    ensures MayReserveAll(st, cfg.target, r, InOrder(tasks))
  {
    DistinctInOrder(tasks);
    hide Admitted, FreeSlots, InOrder;
    assert 0 !in InOrder(tasks);
  }

  lemma CreateReservationKept(safe: set<string>, st: Pool, cfg: Config, name: string, s: nat, generation: nat,
                              profile: string, tasks: set<nat>, ttl: int, now: int)
    requires Inv(safe, st)
    ensures Kept(safe, cfg.target, NOTHING, st,
                 CreateReservation(st, cfg, name, s, generation, profile, tasks, ttl, now))
  {
    hide Inv, Calm, Barred, Arms, Shrinks, AddReservations, RefreshReservations, CohortAdmissible, InOrder, MayReserveAll;
    hide SameCohort;
    EbbSelf(safe, cfg.target, st);
    var su := RefreshReservations(st, now);
    RefreshReservationsEbbs(safe, cfg.target, st, now);
    var r := Reservation(Operator(name), 0, s, generation, profile, "", None, Reserved, None, now + ttl);
    if 0 !in tasks && CohortAdmissible(su, cfg, r, InOrder(tasks))
       && !exists q :: q in su.reservations && su.reservations[q].key == Operator(name) {
      CohortMayReserve(su, cfg, r, tasks);
      AddReservationsKept(safe, su, cfg.target, r, InOrder(tasks));
      KeptChain(safe, cfg.target, st, su, AddReservations(su, r, InOrder(tasks)));
    }
  }

  // ----- automatic reservations -----

  /** No reservation was ever made under this nonce. */
  predicate FreshNonce(rs: Reservations, nonce: string) {
    forall q :: q in rs ==> !(rs[q].key.Auto? && rs[q].key.nonce == nonce)
  }

  /** The new automatic reservation shares key and expiry with every live automatic
      one of its Desktop generation. */
  lemma AutoKeyFits(st: Pool, i: Intent, s: nat, now: int)
    requires s in st.sessions && Cohorts(st.reservations) && FreshNonce(st.reservations, i.nonce)
    ensures KeyFits(st.reservations, AutoReservation(st, i, s, now))
  {
    var generation := st.sessions[s].generation;
    var cohort := set q | q in st.reservations && AutoCohort(st.reservations[q], s, generation);
    var r := AutoReservation(st, i, s, now);
    forall q | q in st.reservations
      ensures
        && (st.reservations[q].key == r.key ==>
              st.reservations[q].session == r.session && st.reservations[q].generation == r.generation
              && st.reservations[q].expires == r.expires)
        && ((st.reservations[q].state.Live() && st.reservations[q].key.Auto? && r.key.Auto?
             && st.reservations[q].session == r.session && st.reservations[q].generation == r.generation) ==>
              st.reservations[q].key == r.key)
    {
      if cohort != {} {
        var first := Least(cohort);
        assert AutoCohort(st.reservations[first], s, generation);
        if q != first {
          assert CohortPair(st.reservations[first], st.reservations[q]);
        }
      } else {
        assert q !in cohort;
      }
    }
  }

  lemma AdmittedExceptOne(st: Pool, task: nat)
    requires task > 0
    ensures Admitted(st.leases, st.reservations) <= AdmittedExcept(st, task) + {ForTask(task)}
  {
    forall k | k in Admitted(st.leases, st.reservations)
      ensures k in AdmittedExcept(st, task) + {ForTask(task)}
    {
      if id :| id in st.leases && st.leases[id].state.Holds() && k == AdmissionKey(id, st.leases[id]) {
        assert st.leases[id].req.task == task ==> k == ForTask(task);
      } else {
        var r :| r in st.reservations && st.reservations[r].state.Held() && k == ForTask(st.reservations[r].task);
      }
    }
  }

  lemma AutoRoom(st: Pool, task: nat, target: int)
    requires task > 0 && |AdmittedExcept(st, task)| < target
    ensures ForTask(task) in Admitted(st.leases, st.reservations) || |Admitted(st.leases, st.reservations)| < target
  {
    var all := Admitted(st.leases, st.reservations);
    AdmittedExceptOne(st, task);
    hide Admitted, AdmittedExcept;
    if ForTask(task) !in all {
      assert all <= AdmittedExcept(st, task);
      Subset(all, AdmittedExcept(st, task));
    }
  }

  lemma ReserveAutoKept(safe: set<string>, before: Pool, st: Pool, cfg: Config, i: Intent, route: set<nat>,
                        chosen: nat, now: int)
    requires Inv(safe, before) && Kept(safe, cfg.target, NOTHING, before, st)
    requires i.task > 0 && FreshNonce(st.reservations, i.nonce) && |AdmittedExcept(st, i.task)| < cfg.target
    ensures Kept(safe, cfg.target, NOTHING, before, ReserveAuto(before, st, cfg, i, route, chosen, now))
  {
    hide LeaseRows, Sharing, ReservationRows, Pins, Cohorts, Capacity, WaveOrder, SessionRows, Calm, Barred, Arms, Shrinks, AutoFits;
    hide Admitted, AdmittedExcept, KeyFits;
    EbbSelf(safe, cfg.target, before);
    if chosen in st.sessions && AutoCandidate(st, cfg, i, route, chosen, now) {
      var r := AutoReservation(st, i, chosen, now);
      if !Collides(st.reservations, r) {
        AutoKeyFits(st, i, chosen, now);
        AutoRoom(st, i.task, cfg.target);
        AddReservationKept(safe, st, cfg.target, r);
        KeptChain(safe, cfg.target, before, st, AddReservation(st, r));
      }
    }
  }

  /** Failing a cohort admits nobody and makes no key. */
  lemma FailedCohortRoom(st: Pool, keys: set<CohortKey>, now: int, task: nat, nonce: string)
    ensures AdmittedExcept(FailCohorts(st, keys, false, now), task) <= AdmittedExcept(st, task)
    ensures FreshNonce(st.reservations, nonce) ==> FreshNonce(FailCohorts(st, keys, false, now).reservations, nonce)
  {
    var su := FailCohorts(st, keys, false, now);
    forall k | k in AdmittedExcept(su, task)
      ensures k in AdmittedExcept(st, task)
    {
      if id :| id in su.leases && su.leases[id].state.Holds() && su.leases[id].req.task != task
               && k == AdmissionKey(id, su.leases[id]) {
        assert st.leases[id] == su.leases[id];
      } else {
        var r :| r in su.reservations && su.reservations[r].state.Held() && su.reservations[r].task != task
                 && k == ForTask(su.reservations[r].task);
        assert st.reservations[r] == su.reservations[r];
      }
    }
  }

  lemma KeysRefreshed(st: Pool, su: Pool, nonce: string)
    requires Evolves(st, su) && su.reservations.Keys == st.reservations.Keys && FreshNonce(st.reservations, nonce)
    ensures FreshNonce(su.reservations, nonce)
  {
    forall q | q in su.reservations
      ensures !(su.reservations[q].key.Auto? && su.reservations[q].key.nonce == nonce)
    {
      assert ReservationEvolves(st.reservations[q], su.reservations[q]);
    }
  }

  lemma RefreshKeys(st: Pool, now: int)
    ensures RefreshReservations(st, now).reservations.Keys == st.reservations.Keys
  {
    hide TerminalSiblingKeys, ExpiredKeys, InvalidKeys, TaskOver, LeaseOver, HasPermit;
  }

  lemma PrepareTaskKept(safe: set<string>, st: Pool, cfg: Config, i: Intent, route: set<nat>, chosen: nat, now: int)
    requires Inv(safe, st) && FreshNonce(st.reservations, i.nonce)
    ensures Kept(safe, cfg.target, NOTHING, st, PrepareTask(st, cfg, i, route, chosen, now))
  {
    hide Inv, Evolves, Owned, Quiet, Lifecycle, Rests, Arms, NoWave, Admits, BarrierHolds, Barred, Shrinks, ReserveAuto, RefreshReservations;
    hide FailCohorts, LatestUsable, AdmittedExcept, FreshNonce;
    EbbSelf(safe, cfg.target, st);
    var su := RefreshReservations(st, now);
    RefreshReservationsEbbs(safe, cfg.target, st, now);
    RefreshKeys(st, now);
    KeysRefreshed(st, su, i.nonce);
    if i.task > 0 && |AdmittedExcept(su, i.task)| < cfg.target {
      ReserveAutoKept(safe, st, su, cfg, i, route, chosen, now);
      var newest := Newest(su.reservations, i.task);
      if newest.Some? {
        FailThenReserve(safe, st, su, cfg, i, route, chosen, su.reservations[newest.value].key, now);
      }
    }
  }

  lemma FailThenReserve(safe: set<string>, st: Pool, su: Pool, cfg: Config, i: Intent, route: set<nat>, chosen: nat,
                        key: CohortKey, now: int)
    requires Inv(safe, st) && Kept(safe, cfg.target, NOTHING, st, su) && FreshNonce(su.reservations, i.nonce)
    requires i.task > 0 && |AdmittedExcept(su, i.task)| < cfg.target
    ensures Kept(safe, cfg.target, NOTHING, st,
                 ReserveAuto(st, FailCohorts(su, {key}, false, now), cfg, i, route, chosen, now))
  {
    hide Inv, Calm, Barred, Arms, Shrinks, ReserveAuto, FailCohorts, AdmittedExcept, FreshNonce;
    var sv := FailCohorts(su, {key}, false, now);
    FailCohortsEbbs(safe, cfg.target, su, {key}, false, now);
    KeptChain(safe, cfg.target, st, su, sv);
    FailedCohortRoom(su, {key}, now, i.task, i.nonce);
    Subset(AdmittedExcept(sv, i.task), AdmittedExcept(su, i.task));
    ReserveAutoKept(safe, st, sv, cfg, i, route, chosen, now);
  }
}
