/** Every client transaction keeps the pool. */
module PoolClientProofs {
  import opened PoolRows
  import opened PoolInvariant
  import opened PoolSettle
  import opened PoolCalm
  import opened PoolRefresh
  import opened PoolRefreshProofs
  import opened PoolSolve
  import opened PoolEntry
  import opened PoolEntryProofs
  import opened PoolCursor
  import opened PoolClient
  import opened PoolHostProofs
  import opened PoolReconcileProofs
  import opened PoolGrant

  // ----- heartbeats, offers, release -----

  /** A heartbeat or a permit request extends the lease where it is. */
  lemma TouchEbbs(safe: set<string>, target: int, st: Pool, id: nat, m: Lease)
    requires Inv(safe, st) && id in st.leases
    requires SamePlace(st.leases[id], m) && m.req == st.leases[id].req && m.state == st.leases[id].state
    ensures Ebbs(safe, target, st, st.(leases := st.leases[id := m]))
  {
    hide Inv, Ebbs;
    OneLeaseEbbs(safe, target, st, id, m);
  }

  lemma RefreshThenPlaceNamed(safe: set<string>, st: Pool, cfg: Config, id: nat, now: int)
    requires Inv(safe, st)
    ensures Kept(safe, cfg.target, NOTHING, st, PlaceNamed(RefreshReservations(st, now), cfg, id, now))
  {
    hide Inv, Calm, Barred, Arms, Shrinks, PlaceNamed, RefreshReservations;
    var su := RefreshReservations(st, now);
    RefreshReservationsEbbs(safe, cfg.target, st, now);
    PlaceNamedKept(safe, su, cfg, id, now);
    KeptChain(safe, cfg.target, st, su, PlaceNamed(su, cfg, id, now));
  }

  lemma HeartbeatLeaseKept(safe: set<string>, st: Pool, cfg: Config, id: nat, token: string, now: int)
    requires Inv(safe, st)
    ensures Kept(safe, cfg.target, NOTHING, st, HeartbeatLease(st, cfg, id, token, now))
  {
    hide Inv, Calm, Barred, Arms, Shrinks, PlaceNamed, RefreshReservations;
    if !Authorized(st, id, token) || !st.leases[id].state.Live() {
      EbbSelf(safe, cfg.target, st);
    } else {
      var l := st.leases[id];
      var m := l.(
        state := if l.req.protocol < 2 && l.state.Leased? then Active else l.state,
        heartbeat := now, expires := now + cfg.leaseTtl,
        offerExpires := if l.req.protocol >= 2 && l.state.Offered? then now + cfg.offerAck else l.offerExpires);
      var su := st.(leases := st.leases[id := m]);
      OneLeaseEbbs(safe, cfg.target, st, id, m);
      if l.state.Queued? && cfg.operational {
        RefreshThenPlaceNamed(safe, su, cfg, id, now);
        KeptChain(safe, cfg.target, st, su, PlaceNamed(RefreshReservations(su, now), cfg, id, now));
      }
    }
  }

  lemma RefuseOfferEbbs(safe: set<string>, target: int, st: Pool, id: nat, now: int)
    requires Inv(safe, st) && id in st.leases
    ensures Ebbs(safe, target, st, RefuseOffer(st, id, now))
  {
    hide Inv, Ebbs, FailCohorts, FailLeases, RefreshSessions;
    var l := st.leases[id];
    var su := if l.req.pin in st.reservations
              then FailCohorts(st, {st.reservations[l.req.pin].key}, false, now) else st;
    EbbSelf(safe, target, st);
    if l.req.pin in st.reservations {
      FailCohortsEbbs(safe, target, st, {st.reservations[l.req.pin].key}, false, now);
    }
    EbbsInv(safe, target, st, su);
    var sv := FailLeases(su, {id});
    FailLeasesEbbs(safe, target, su, {id});
    EbbChain(safe, target, st, su, sv);
    if l.session.Some? {
      EbbsInv(safe, target, st, sv);
      LeasedRegistered(safe, st, id);
      EbbRegistered(safe, target, st, sv, l.session.value);
      RefreshSessionsEbbs(safe, target, sv, {l.session.value});
      EbbChain(safe, target, st, sv, RefreshSessions(sv, {l.session.value}));
    }
  }

  lemma RevokeOfferEbbs(safe: set<string>, target: int, st: Pool, cfg: Config, id: nat, now: int)
    requires Inv(safe, st) && id in st.leases
    ensures Ebbs(safe, target, st, RevokeOffer(st, cfg, id, now))
  {
    hide Inv, Ebbs, RequeueOffers, RefreshSessions;
    var l := st.leases[id];
    var m := l.(heartbeat := now, expires := now + cfg.leaseTtl);
    var s1 := st.(leases := st.leases[id := m]);
    TouchEbbs(safe, target, st, id, m);
    EbbsInv(safe, target, st, s1);
    var su := RequeueOffers(s1, {id});
    RequeueOffersEbbs(safe, target, s1, {id});
    EbbChain(safe, target, st, s1, su);
    if l.session.Some? {
      EbbsInv(safe, target, st, su);
      LeasedRegistered(safe, st, id);
      EbbRegistered(safe, target, st, su, l.session.value);
      RefreshSessionsEbbs(safe, target, su, {l.session.value});
      EbbChain(safe, target, st, su, RefreshSessions(su, {l.session.value}));
    }
  }

  /** The offer is accepted: the lease may attach to its Desktop. */
  predicate Attaches(st: Pool, cfg: Config, id: nat, token: string, now: int) {
    && Authorized(st, id, token) && st.leases[id].req.protocol >= 2 && st.leases[id].state.Offered?
    && !TargetGone(st, cfg, id, now) && !Transient(st, id, now)
  }

  lemma AttachKept(safe: set<string>, target: int, st: Pool, id: nat, m: Lease)
    requires Inv(safe, st) && id in st.leases && st.leases[id].state.Offered?
    requires SamePlace(st.leases[id], m) && m.req == st.leases[id].req && m.state.Attaching?
    ensures Kept(safe, target, NOTHING.(attaches := {id}), st, st.(leases := st.leases[id := m]))
  {
    hide Inv, Calm, Shrinks;
    var su := st.(leases := st.leases[id := m]);
    OneLeaseSettles(st, id, m);
    var may := NOTHING.(attaches := {id});
    assert Quiet(may, st, su) && EndsEmpty({}, st, su) && FirmExcept(may, st, su) && Arms(st, su);
    assert Barred(st) ==> Barred(su) by {
      if Barred(st) {
        forall i | i in su.leases
          ensures BehindBarrier(su.sessions, su.leases[i])
        {
          assert BehindBarrier(st.sessions, st.leases[i]);
        }
      }
    }
    hide Settles, Quiet, EndsEmpty, FirmExcept, Arms, Barred;
    SettleKept(safe, target, NOTHING.(attaches := {id}), st, su);
  }

  lemma AcceptLeaseKept(safe: set<string>, st: Pool, cfg: Config, id: nat, token: string, now: int)
    requires Inv(safe, st)
    ensures Kept(safe, cfg.target, NOTHING.(attaches := if Attaches(st, cfg, id, token, now) then {id} else {}),
                 st, AcceptLease(st, cfg, id, token, now))
  {
    hide Inv, Calm, Barred, Arms, Shrinks, TargetGone, Transient, RefuseOffer, RevokeOffer;
    if Attaches(st, cfg, id, token, now) {
      AttachKept(safe, cfg.target, st, id,
                 st.leases[id].(state := Attaching, heartbeat := now, expires := now + cfg.leaseTtl));
    } else {
      if id in st.leases {
        RefuseOfferEbbs(safe, cfg.target, st, id, now);
        RevokeOfferEbbs(safe, cfg.target, st, cfg, id, now);
      }
      EbbSelf(safe, cfg.target, st);
      assert NOTHING == NOTHING.(attaches := {});
    }
  }

  lemma CompletePipelineEbbs(safe: set<string>, target: int, st: Pool, cfg: Config, id: nat, token: string,
                             generation: nat, now: int)
    requires Inv(safe, st)
    ensures Ebbs(safe, target, st, CompletePipeline(st, cfg, id, token, generation, now))
  {
    hide Inv, Ebbs;
    EbbSelf(safe, target, st);
    if Authorized(st, id, token) && st.leases[id].state.Active? && st.leases[id].session.Some?
       && st.leases[id].permit == Some(generation) {
      var m := st.leases[id].(heartbeat := now, expires := now + cfg.leaseTtl);
      var su := st.(leases := st.leases[id := m]);
      TouchEbbs(safe, target, st, id, m);
      EbbsInv(safe, target, st, su);
      MarkPipelineEbbs(safe, target, su, id);
      EbbChain(safe, target, st, su, MarkPipeline(su, id));
    }
  }

  lemma HeldByNonTerminal(safe: set<string>, st: Pool, id: nat)
    requires Inv(safe, st) && id in st.leases && st.leases[id].state.Holds()
    ensures st.leases[id].session.Some? && st.leases[id].session.value in st.sessions
    ensures !st.sessions[st.leases[id].session.value].state.Over()
  {
    assert LeaseRow(st.sessions, st.leases[id]);
  }

  lemma CancelLeaseEbbs(safe: set<string>, target: int, st: Pool, id: nat, token: string, now: int)
    requires Inv(safe, st)
    ensures Ebbs(safe, target, st, CancelLease(st, id, token, now))
  {
    hide Inv, Ebbs, RefreshSessions;
    EbbSelf(safe, target, st);
    if Authorized(st, id, token) && st.leases[id].state.Live() {
      var l := st.leases[id];
      if l.state.Holds() {
        HeldByNonTerminal(safe, st, id);
      }
      if (OwnsProject(l) || (l.state.Leased? && l.req.protocol < 2)) && l.session.Some? {
        var s := l.session.value;
        var su := BlockSessions(st, {s}, now);
        BlockSessionsEbbs(safe, target, st, {s}, now);
        EbbsInv(safe, target, st, su);
        var m := l.(state := Releasing, releaseAt := Some(now));
        OneLeaseEbbs(safe, target, su, id, m);
        EbbChain(safe, target, st, su, su.(leases := su.leases[id := m]));
      } else {
        var m := l.(state := Cancelled, session := None, slot := 0);
        var su := st.(leases := st.leases[id := m]);
        OneLeaseEbbs(safe, target, st, id, m);
        if l.session.Some? {
          EbbsInv(safe, target, st, su);
          LeasedRegistered(safe, st, id);
          EbbRegistered(safe, target, st, su, l.session.value);
          RefreshSessionsEbbs(safe, target, su, {l.session.value});
          EbbChain(safe, target, st, su, RefreshSessions(su, {l.session.value}));
        }
      }
    }
  }

  // ----- transactions that grant -----

  lemma ActivateLeaseAdvances(safe: set<string>, st: Pool, cfg: Config, id: nat, token: string,
                              seenState: LeaseState, seenSession: nat, now: int)
    requires Inv(safe, st)
    ensures Advances(safe, cfg.target, NOTHING, st,
                     ActivateLease(safe, st, cfg, id, token, seenState, seenSession, now))
  {
    hide Inv, Ebbs, Advances, GrantBatch;
    EbbSelf(safe, cfg.target, st);
    EbbAdvances(safe, cfg.target, st, st);
    if Authorized(st, id, token) && st.leases[id].state == seenState && (seenState.Leased? || seenState.Attaching?) {
      var m := st.leases[id].(state := Active, heartbeat := now, expires := now + cfg.leaseTtl);
      var su := st.(leases := st.leases[id := m]);
      OneLeaseEbbs(safe, cfg.target, st, id, m);
      EbbAdvances(safe, cfg.target, st, su);
      GrantBatchAdvances(safe, cfg.target, st, su, seenSession, now, false);
    }
  }

  lemma RequestSolvePermitAdvances(safe: set<string>, st: Pool, cfg: Config, id: nat, token: string,
                                   underfilled: bool, now: int)
    requires Inv(safe, st)
    ensures Advances(safe, cfg.target, NOTHING, st, RequestSolvePermit(safe, st, cfg, id, token, underfilled, now))
  {
    hide Inv, Ebbs, Advances, GrantBatch;
    EbbSelf(safe, cfg.target, st);
    EbbAdvances(safe, cfg.target, st, st);
    if Authorized(st, id, token) {
      var m := st.leases[id].(heartbeat := now, expires := now + cfg.leaseTtl);
      var su := st.(leases := st.leases[id := m]);
      TouchEbbs(safe, cfg.target, st, id, m);
      EbbAdvances(safe, cfg.target, st, su);
      if st.leases[id].session.Some? {
        GrantBatchAdvances(safe, cfg.target, st, su, st.leases[id].session.value, now, underfilled);
      }
    }
  }

  // ----- faults -----

  lemma SuspectTransportEbbs(safe: set<string>, target: int, st: Pool, s: nat)
    requires Inv(safe, st)
    ensures Ebbs(safe, target, st, SuspectTransport(st, s))
  {
    hide Inv, Ebbs;
    EbbSelf(safe, target, st);
    if s in st.sessions && st.sessions[s].state.Assignable() {
      OneSessionEbbs(safe, target, st, s,
                     st.sessions[s].(state := Unhealthy, fault := TransportSuspect, drainAt := None));
    }
  }

  lemma ReportDeathRow(st: Pool, s: nat, fault: Fault, now: int)
    requires s in st.sessions
    ensures
      var su := ReportDeath(st, s, fault, now);
      && su.leases == st.leases && su.reservations == st.reservations
      && s in su.sessions && su.sessions == st.sessions[s := su.sessions[s]]
      && RowEbbs(st.sessions[s], su.sessions[s], NoHolder(st.leases, s))
  {
    hide RowEbbs, NoHolder;
    RowSubsides(st.sessions[s], ReportDeath(st, s, fault, now).sessions[s], NoHolder(st.leases, s));
  }

  lemma ReportDeathEbbs(safe: set<string>, target: int, st: Pool, s: nat, fault: Fault, now: int)
    requires Inv(safe, st)
    ensures Ebbs(safe, target, st, ReportDeath(st, s, fault, now))
  {
    hide Inv, Ebbs, NoHolder, SessionMove;
    if s !in st.sessions {
      EbbSelf(safe, target, st);
    } else {
      hide ReportDeath;
      var su := ReportDeath(st, s, fault, now);
      ReportDeathRow(st, s, fault, now);
      OneSessionEbbs(safe, target, st, s, su.sessions[s]);
      ThenElsewhere(safe, target, st, st.(sessions := st.sessions[s := su.sessions[s]]), su);
    }
  }
}
