/** Every step of every interleaving makes progress without breaking the pool. */
module PoolStepProofs {
  import opened PoolRows
  import opened PoolInvariant
  import opened PoolSettle
  import opened PoolCalm
  import opened PoolRefreshProofs
  import opened PoolGrant
  import opened PoolClient
  import opened PoolClientProofs
  import opened PoolAdmissionProofs
  import opened PoolHost
  import opened PoolHostProofs
  import opened PoolReconcile
  import opened PoolReconcileProofs
  import opened PoolSteps

  // ----- the solver-timeout report -----

  /** The Desktop whose project is about to close is already behind its barrier, or
      is the one the report read before, in a state the report can still write. */
  predicate TimeoutCovered(st: Pool, id: nat, seenSession: nat) {
    TimesOut(st, id) && st.leases[id].session.Some? && st.leases[id].session.value in st.sessions ==>
      var s := st.leases[id].session.value;
      || st.sessions[s].blockedAt.Some?
      || (s == seenSession && (st.sessions[s].state.Assignable() || st.sessions[s].state.Draining?))
  }

  lemma CloseTimedOutCalm(safe: set<string>, target: int, st: Pool, id: nat, now: int)
    requires Inv(safe, st)
    ensures Inv(safe, CloseTimedOut(st, id, now)) && Calm(target, NOTHING, st, CloseTimedOut(st, id, now))
  {
    hide Inv, Calm, Shrinks, Settles, FirmExcept, Quiet, EndsEmpty, CloseTimedOut;
    CloseTimedOutSettles(st, id, now);
    SettleCalm(safe, target, NOTHING, st, CloseTimedOut(st, id, now));
  }

  lemma CloseTimedOutSettles(st: Pool, id: nat, now: int)
    ensures
      var su := CloseTimedOut(st, id, now);
      Settles(st, su) && FirmExcept(NOTHING, st, su) && Quiet(NOTHING, st, su) && EndsEmpty({}, st, su)
  {
    if TimesOut(st, id) {
      OneLeaseSettles(st, id, st.leases[id].(state := Releasing, releaseAt := Some(now)));
    } else {
      SelfSettles(st);
    }
    hide Settles;
  }

  lemma QuarantineSeenEbbs(safe: set<string>, target: int, st: Pool, s: nat, until: int, fault: Fault, now: int)
    requires Inv(safe, st)
    ensures Ebbs(safe, target, st, QuarantineSeen(st, s, until, fault, now))
  {
    hide Inv, Ebbs;
    EbbSelf(safe, target, st);
    if QuarantineSeen(st, s, until, fault, now) != st {
      OneSessionEbbs(safe, target, st, s, QuarantineSeen(st, s, until, fault, now).sessions[s]);
    }
  }

  /** Whatever was read before, the report keeps the invariant and is calm. */
  lemma SolverTimeoutProgress(safe: set<string>, target: int, st: Pool, id: nat, seenSession: nat,
                              seenAllocation: nat, until: int, fault: Fault, now: int)
    requires Inv(safe, st)
    ensures Progress(safe, target, NOTHING, st, SolverTimeout(st, id, seenSession, seenAllocation, until, fault, now))
  {
    hide Inv, Calm, Barred, Arms, Shrinks, CloseTimedOut, QuarantineSeen;
    var su := SolverTimeout(st, id, seenSession, seenAllocation, until, fault, now);
    var mid := CloseTimedOut(st, id, now);
    CloseTimedOutCalm(safe, target, st, id, now);
    QuarantineSeenEbbs(safe, target, mid, seenSession, until, fault, now);
    ThenElsewhere(safe, target, mid, QuarantineSeen(mid, seenSession, until, fault, now), su);
    CalmTransitive(target, NOTHING, NOTHING, st, mid, su);
    assert Both(NOTHING, NOTHING) == NOTHING;
    CalmProgress(safe, target, NOTHING, st, su);
  }

  lemma CoveredBarred(st: Pool, id: nat, seenSession: nat, until: int, fault: Fault, now: int)
    requires Barred(st) && TimeoutCovered(st, id, seenSession)
    requires TimesOut(st, id) ==> st.leases[id].session.Some? && st.leases[id].session.value in st.sessions
    ensures Barred(QuarantineSeen(CloseTimedOut(st, id, now), seenSession, until, fault, now))
  {
    var mid := CloseTimedOut(st, id, now);
    var su := QuarantineSeen(mid, seenSession, until, fault, now);
    hide QuarantineSeen;
    forall i | i in su.leases
      ensures BehindBarrier(su.sessions, su.leases[i])
    {
      SeenArmed(mid, seenSession, until, fault, now);
      assert i in st.leases;
      assert BehindBarrier(st.sessions, st.leases[i]);
    }
  }

  lemma SeenArmed(st: Pool, s: nat, until: int, fault: Fault, now: int)
    ensures
      var su := QuarantineSeen(st, s, until, fault, now);
      && su.leases == st.leases && su.sessions.Keys == st.sessions.Keys
      && (forall t :: t in st.sessions && st.sessions[t].blockedAt.Some? ==> su.sessions[t].blockedAt.Some?)
      && (s in st.sessions && (st.sessions[s].state.Assignable() || st.sessions[s].state.Draining?) ==>
            su.sessions[s].blockedAt.Some?)
  {
    var su := QuarantineSeen(st, s, until, fault, now);
    if su != st {
      assert su.sessions == st.sessions[s := su.sessions[s]];
      assert su.sessions[s].blockedAt.Some?;
      hide QuarantineSeen;
    }
  }

  lemma UncoveredBreaks(st: Pool, id: nat, seenSession: nat, until: int, fault: Fault, now: int)
    requires !TimeoutCovered(st, id, seenSession)
    ensures !Barred(QuarantineSeen(CloseTimedOut(st, id, now), seenSession, until, fault, now))
  {
    var su := QuarantineSeen(CloseTimedOut(st, id, now), seenSession, until, fault, now);
    assert id in su.leases && !BehindBarrier(su.sessions, su.leases[id]);
  }

  /** The report keeps every closing project behind a barrier exactly when its stale
      view of the Desktop still covers the lease. */
  lemma SolverTimeoutBarred(safe: set<string>, st: Pool, id: nat, seenSession: nat,
                            seenAllocation: nat, until: int, fault: Fault, now: int)
    requires Inv(safe, st) && Barred(st)
    ensures Barred(SolverTimeout(st, id, seenSession, seenAllocation, until, fault, now))
            <==> TimeoutCovered(st, id, seenSession)
  {
    hide TimeoutCovered, QuarantineSeen, CloseTimedOut;
    if TimesOut(st, id) {
      HeldByNonTerminal(safe, st, id);
    }
    hide Inv;
    if TimeoutCovered(st, id, seenSession) {
      CoveredBarred(st, id, seenSession, until, fault, now);
    } else {
      UncoveredBreaks(st, id, seenSession, until, fault, now);
    }
  }

  // ----- every step -----

  lemma AdvancesProgress(safe: set<string>, target: int, may: May, st: Pool, su: Pool)
    requires Advances(safe, target, may, st, su)
    ensures Progress(safe, target, may, st, su) && Arms(st, su) && (Barred(st) ==> Barred(su))
  {
  }

  lemma KeptStep(safe: set<string>, target: int, may: May, st: Pool, su: Pool)
    requires Kept(safe, target, may, st, su)
    ensures Advances(safe, target, may, st, su)
  {
    hide Kept, Advances;
    KeptAdvances(safe, target, may, st, su);
  }

  lemma EbbStep(safe: set<string>, target: int, st: Pool, su: Pool)
    requires Ebbs(safe, target, st, su)
    ensures Advances(safe, target, NOTHING, st, su)
  {
    hide Kept, Advances;
    KeptAdvances(safe, target, NOTHING, st, su);
  }

  /** Every step except the solver-timeout report advances the pool. */
  lemma StepAdvances(safe: set<string>, st: Pool, e: Event)
    requires Inv(safe, st) && Fair(st, e) && !e.step.SolverTimeoutStep?
    ensures Advances(safe, e.cfg.target, Licence(st, e), st, Next(safe, st, e))
  {
    hide Inv, Advances, Kept, Ebbs;
    hide RequestLease, CreateReservation, PrepareTask, HeartbeatLease, AcceptLease, ActivateLease, RequestSolvePermit;
    hide CompletePipeline, CancelLease, SuspectTransport, ReportDeath, ClaimStart, RegisterSession, FailStart;
    hide HeartbeatSession, CompleteRelease, SessionFault, CloseSession, ReapDeadSession, RequestDrain, Reconcile;
    hide Attaches, HeartbeatMay, ReleaseMay, Pardons, Closes, FreshNonce;
    var t := e.cfg.target;
    var su := Next(safe, st, e);
    match e.step
    case RequestLeaseStep(w) =>
      RequestLeaseKept(safe, st, e.cfg, w, e.now);
      KeptStep(safe, t, NOTHING, st, su);
    case CreateReservationStep(name, s, g, profile, cohort, ttl) =>
      CreateReservationKept(safe, st, e.cfg, name, s, g, profile, cohort, ttl, e.now);
      KeptStep(safe, t, NOTHING, st, su);
    case PrepareTaskStep(i, route, chosen) =>
      PrepareTaskKept(safe, st, e.cfg, i, route, chosen, e.now);
      KeptStep(safe, t, NOTHING, st, su);
    case HeartbeatLeaseStep(id, token) =>
      HeartbeatLeaseKept(safe, st, e.cfg, id, token, e.now);
      KeptStep(safe, t, NOTHING, st, su);
    case AcceptLeaseStep(id, token) =>
      AcceptLeaseKept(safe, st, e.cfg, id, token, e.now);
      KeptStep(safe, t, Licence(st, e), st, su);
    case ActivateLeaseStep(id, token, seenState, seenSession) =>
      ActivateLeaseAdvances(safe, st, e.cfg, id, token, seenState, seenSession, e.now);
    case RequestSolvePermitStep(id, token, underfilled) =>
      RequestSolvePermitAdvances(safe, st, e.cfg, id, token, underfilled, e.now);
    case CompletePipelineStep(id, token, wave) =>
      CompletePipelineEbbs(safe, t, st, e.cfg, id, token, wave, e.now);
      EbbStep(safe, t, st, su);
    case CancelLeaseStep(id, token) =>
      CancelLeaseEbbs(safe, t, st, id, token, e.now);
      EbbStep(safe, t, st, su);
    case SuspectTransportStep(s) =>
      SuspectTransportEbbs(safe, t, st, s);
      EbbStep(safe, t, st, su);
    case ReportDeathStep(s, fault) =>
      ReportDeathEbbs(safe, t, st, s, fault, e.now);
      EbbStep(safe, t, st, su);
    case ClaimStartStep(s, a, node, host) =>
      ClaimStartEbbs(safe, t, st, s, a, node, host, e.now);
      EbbStep(safe, t, st, su);
    case RegisterSessionStep(s, host, endpoint, process, profile, token, enabled) =>
      RegisterSessionEbbs(safe, t, st, s, host, endpoint, process, profile, token, enabled, e.now);
      EbbStep(safe, t, st, su);
    case FailStartStep(s, host) =>
      FailStartEbbs(safe, t, st, s, host);
      EbbStep(safe, t, st, su);
    case HeartbeatSessionStep(s, token, alive) =>
      HeartbeatSessionKept(safe, st, e.cfg, s, token, alive, e.now);
      KeptStep(safe, t, Licence(st, e), st, su);
    case CompleteReleaseStep(s, token, id, success) =>
      CompleteReleaseKept(safe, st, e.cfg, s, token, id, success, e.now);
      KeptStep(safe, t, Licence(st, e), st, su);
    case SessionFaultStep(s, token, confirmed, fault) =>
      SessionFaultKept(safe, t, st, s, token, confirmed, fault, e.now);
      KeptStep(safe, t, Licence(st, e), st, su);
    case CloseSessionStep(s, token, success, requeue, fault) =>
      CloseSessionKept(safe, t, st, e.cfg, s, token, success, requeue, fault, e.now);
      KeptStep(safe, t, Licence(st, e), st, su);
    case ReapDeadSessionStep(s, seen) =>
      ReapDeadSessionEbbs(safe, t, st, s, seen);
      EbbStep(safe, t, st, su);
    case RequestDrainStep =>
      RequestDrainEbbs(safe, t, st, None, e.now);
      EbbStep(safe, t, st, su);
    case ReconcileStep(execute, orders) =>
      ReconcileKept(safe, st, e.cfg, execute, orders, e.now);
      KeptStep(safe, t, NOTHING, st, su);
    case SchedulerStep(tasks, allocations) =>
      ElsewhereEbbs(safe, t, st, su);
      EbbStep(safe, t, st, su);
  }

  /** Every step of every interleaving. */
  lemma StepProgress(safe: set<string>, st: Pool, e: Event)
    requires Inv(safe, st) && Fair(st, e)
    ensures Progress(safe, e.cfg.target, Licence(st, e), st, Next(safe, st, e))
  {
    hide Inv, Progress, Advances, Fair;
    if e.step.SolverTimeoutStep? {
      SolverTimeoutProgress(safe, e.cfg.target, st, e.step.id, e.step.seenSession, e.step.seenAllocation,
                            e.step.until, e.step.fault, e.now);
    } else {
      StepAdvances(safe, st, e);
      AdvancesProgress(safe, e.cfg.target, Licence(st, e), st, Next(safe, st, e));
    }
  }
}
