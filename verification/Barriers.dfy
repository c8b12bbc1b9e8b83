/** The reuse barrier of assignable Desktops, and the quarantine that is meant to keep a
    Desktop from being used again: which steps keep them, and exactly which do not. */
module PoolBarriers {
  import opened PoolRows
  import opened PoolInvariant
  import opened PoolCalm
  import opened PoolRefreshProofs
  import opened PoolClient
  import opened PoolHost
  import opened PoolHostProofs
  import opened PoolGrant
  import opened PoolSteps
  import opened PoolStepProofs
  import opened PoolSafety
  import opened PoolReuse

  // ----- assignable Desktops that close a project -----

  /** Every Desktop that takes new work and still closes a project has its barrier armed. */
  ghost predicate AssignableBarred(st: Pool) {
    forall s :: s in st.sessions && st.sessions[s].state.Assignable() && ClosingOn(st.leases, s) ==>
      st.sessions[s].blockedAt.Some?
  }

  /** The report closes a project on an assignable Desktop without a barrier that is not
      the one it read. */
  predicate StaleReport(st: Pool, id: nat, seenSession: nat) {
    TimesOut(st, id) && st.leases[id].session.Some? && st.leases[id].session.value in st.sessions &&
    var s := st.leases[id].session.value;
    s != seenSession && st.sessions[s].state.Assignable() && st.sessions[s].blockedAt.None?
  }

  /** The heartbeat recovers a Desktop that closes a project without a barrier. */
  predicate WakesUncovered(st: Pool, cfg: Config, s: nat, token: string, alive: bool) {
    HostAuthorized(st, s, token) && alive && Recoverable(st, s, cfg.operational)
    && ClosingOn(st.leases, s) && st.sessions[s].blockedAt.None?
  }

  /** The only two ways to an assignable Desktop that closes a project unbarred. */
  predicate Unbars(st: Pool, e: Event) {
    (e.step.SolverTimeoutStep? && StaleReport(st, e.step.id, e.step.seenSession))
    || (e.step.HeartbeatSessionStep? && WakesUncovered(st, e.cfg, e.step.s, e.step.token, e.step.alive))
  }

  lemma ClosedRows(st: Pool, id: nat, now: int)
    ensures
      var su := CloseTimedOut(st, id, now);
      && su.leases.Keys == st.leases.Keys && su.sessions == st.sessions
      && (forall i :: i in st.leases && i != id ==> su.leases[i] == st.leases[i])
      && (id in st.leases ==> su.leases[id].session == st.leases[id].session)
      && (id in st.leases && !TimesOut(st, id) ==> su.leases[id] == st.leases[id])
      && (TimesOut(st, id) ==> su.leases[id].state.Releasing?)
  {
  }

  lemma SeenRows(st: Pool, s: nat, until: int, fault: Fault, now: int)
    ensures
      var su := QuarantineSeen(st, s, until, fault, now);
      && su.leases == st.leases && su.sessions.Keys == st.sessions.Keys
      && (forall t :: t in st.sessions && t != s ==> su.sessions[t] == st.sessions[t])
      && (s in st.sessions ==> !su.sessions[s].state.Assignable())
  {
  }

  /** The report keeps the property exactly when it is not stale on such a Desktop. */
  lemma ReportKeepsAssignable(st: Pool, id: nat, seenSession: nat, seenAllocation: nat, until: int,
                              fault: Fault, now: int)
    requires AssignableBarred(st)
    ensures AssignableBarred(SolverTimeout(st, id, seenSession, seenAllocation, until, fault, now))
            <==> !StaleReport(st, id, seenSession)
  {
    var mid := CloseTimedOut(st, id, now);
    var su := SolverTimeout(st, id, seenSession, seenAllocation, until, fault, now);
    ClosedRows(st, id, now);
    SeenRows(mid, seenSession, until, fault, now);
    hide CloseTimedOut, QuarantineSeen;
    if StaleReport(st, id, seenSession) {
      var s := st.leases[id].session.value;
      assert su.leases[id].state.Releasing? && ClosingOn(su.leases, s);
    } else {
      forall s | s in su.sessions && su.sessions[s].state.Assignable() && ClosingOn(su.leases, s)
        ensures su.sessions[s].blockedAt.Some?
      {
        var i :| i in su.leases && su.leases[i].session == Some(s) && su.leases[i].state.Releasing?;
        if i != id || !TimesOut(st, id) {
          assert ClosingOn(st.leases, s);
        }
      }
    }
  }

  /** A Desktop that is assignable after a step and closes a project: it did so before,
      behind its barrier, or the barrier is armed now. */
  lemma StaysBarred(safe: set<string>, may: May, st: Pool, su: Pool, s: nat, id: nat)
    requires LeaseRows(st.sessions, st.leases) && AssignableBarred(st)
    requires Arms(st, su) && BarrierHolds(may.clears, st, su) && Rests(may, st, su)
    requires s in su.sessions && su.sessions[s].state.Assignable()
    requires id in su.leases && su.leases[id].session == Some(s) && su.leases[id].state.Releasing?
    requires s in may.wakes && s in st.sessions && ClosingOn(st.leases, s) ==>
      st.sessions[s].blockedAt.Some? && s !in may.clears
    requires s in may.clears && s in st.sessions && ClosingOn(st.leases, s) ==> su.sessions[s].blockedAt.Some?
    ensures su.sessions[s].blockedAt.Some?
  {
    if !BehindBarrier(su.sessions, su.leases[id]) {
      assert LeaseRow(st.sessions, st.leases[id]);
      assert ClosingOn(st.leases, s);
    }
  }

  lemma StepBarrier(safe: set<string>, st: Pool, e: Event)
    requires Inv(safe, st) && Fair(st, e) && !e.step.SolverTimeoutStep?
    ensures
      var su := Next(safe, st, e);
      Arms(st, su) && BarrierHolds(Licence(st, e).clears, st, su) && Rests(Licence(st, e), st, su)
  {
    hide Inv, Next, Licence, Fair, Evolves, Owned, Quiet, Lifecycle, Admits, Grants, BatchClosed, Barred;
    hide Arms, BarrierHolds, Rests;
    StepAdvances(safe, st, e);
  }

  lemma StepKeepsAssignable(safe: set<string>, st: Pool, e: Event, s: nat)
    requires Inv(safe, st) && Fair(st, e) && AssignableBarred(st) && !e.step.SolverTimeoutStep? && !Unbars(st, e)
    requires
      var su := Next(safe, st, e);
      s in su.sessions && su.sessions[s].state.Assignable() && ClosingOn(su.leases, s)
    ensures Next(safe, st, e).sessions[s].blockedAt.Some?
  {
    var su := Next(safe, st, e);
    hide Inv, Next, Licence, Fair, LeaseRows, Arms, BarrierHolds, Rests, AssignableBarred, Recoverable;
    StepBarrier(safe, st, e);
    var id :| id in su.leases && su.leases[id].session == Some(s) && su.leases[id].state.Releasing?;
    InvLeaseRows(safe, st);
    if s in Licence(st, e).wakes {
      Wakes(st, e, s);
    }
    if s in Licence(st, e).clears && s in st.sessions && ClosingOn(st.leases, s) {
      ClearedByAck(safe, st, e, s);
    }
    StaysBarred(safe, Licence(st, e), st, su, s, id);
  }

  lemma Wakes(st: Pool, e: Event, s: nat)
    requires s in Licence(st, e).wakes
    ensures e.step.HeartbeatSessionStep? && e.step.s == s && HostAuthorized(st, s, e.step.token) && e.step.alive
    ensures Recoverable(st, s, e.cfg.operational) && s !in Licence(st, e).clears
  {
  }

  /** With a project still closing, only a confirmation touches the barrier, and re-arms it. */
  lemma ClearedByAck(safe: set<string>, st: Pool, e: Event, s: nat)
    requires Inv(safe, st) && s in Licence(st, e).clears && ClosingOn(st.leases, s)
    ensures s in Next(safe, st, e).sessions && Next(safe, st, e).sessions[s].blockedAt.Some?
  {
    hide Inv, CompleteRelease, Holders;
    ClearsByConfirmation(st, e, s);
    AckArms(safe, st, e.cfg, s, e.step.token, e.step.id, e.step.success, e.now);
  }

  lemma ClearsByConfirmation(st: Pool, e: Event, s: nat)
    requires s in Licence(st, e).clears && (s in st.sessions ==> !BarrierMayClear(st, s, e.now))
    ensures Confirms(st, e, s)
  {
  }

  lemma WokenUncovered(st: Pool, cfg: Config, s: nat, token: string, alive: bool, now: int)
    requires WakesUncovered(st, cfg, s, token, alive)
    ensures !AssignableBarred(HeartbeatSession(st, cfg, s, token, alive, now))
  {
    var su := HeartbeatSession(st, cfg, s, token, alive, now);
    assert s in su.sessions && su.sessions[s].state.Assignable() && su.sessions[s].blockedAt.None?;
    assert su.leases == st.leases && ClosingOn(su.leases, s);
  }

  /** Over all steps: an assignable Desktop that closes a project stays barred exactly when
      the step is neither a stale report nor the recovery of an uncovered Desktop. */
  lemma AssignableBarredStep(safe: set<string>, st: Pool, e: Event)
    requires Inv(safe, st) && Fair(st, e) && AssignableBarred(st)
    ensures AssignableBarred(Next(safe, st, e)) <==> !Unbars(st, e)
  {
    hide Inv, AssignableBarred, StaleReport, WakesUncovered;
    if e.step.SolverTimeoutStep? {
      ReportKeepsAssignable(st, e.step.id, e.step.seenSession, e.step.seenAllocation, e.step.until, e.step.fault, e.now);
    } else if Unbars(st, e) {
      WokenUncovered(st, e.cfg, e.step.s, e.step.token, e.step.alive, e.now);
    } else {
      StepKeepsAll(safe, st, e);
    }
  }

  lemma StepKeepsAll(safe: set<string>, st: Pool, e: Event)
    requires Inv(safe, st) && Fair(st, e) && AssignableBarred(st) && !e.step.SolverTimeoutStep? && !Unbars(st, e)
    ensures AssignableBarred(Next(safe, st, e))
  {
    var su := Next(safe, st, e);
    hide Inv, Next, Fair, Unbars, ClosingOn;
    forall s | s in su.sessions && su.sessions[s].state.Assignable() && ClosingOn(su.leases, s)
      ensures su.sessions[s].blockedAt.Some?
    {
      StepKeepsAssignable(safe, st, e, s);
    }
  }

  /** No step of the run is one of the two. */
  predicate NeverUnbars(safe: set<string>, st: Pool, es: seq<Event>)
    decreases |es|
  {
    es == [] || (!Unbars(st, es[0]) && NeverUnbars(safe, Next(safe, st, es[0]), es[1..]))
  }

  ghost predicate BarredThroughout(safe: set<string>, st: Pool, es: seq<Event>)
    decreases |es|
  {
    AssignableBarred(st) && (es == [] || BarredThroughout(safe, Next(safe, st, es[0]), es[1..]))
  }

  /** Along a run, every assignable Desktop that closes a project is barred in every state
      exactly when no report is stale and no uncovered Desktop is recovered. */
  lemma {:induction false} AssignableBarredRun(safe: set<string>, st: Pool, es: seq<Event>)
    requires Inv(safe, st) && FairRun(safe, st, es) && AssignableBarred(st)
    ensures BarredThroughout(safe, st, es) <==> NeverUnbars(safe, st, es)
    decreases |es|
  {
    hide Inv, Next, Fair, Unbars, AssignableBarred, Progress, Licence;
    if es != [] {
      var su := Next(safe, st, es[0]);
      AssignableBarredStep(safe, st, es[0]);
      StepProgress(safe, st, es[0]);
      ProgressInv(safe, es[0].cfg.target, Licence(st, es[0]), st, su);
      if !Unbars(st, es[0]) {
        AssignableBarredRun(safe, su, es[1..]);
      }
    }
  }

  /** Over all steps: a Desktop with an owner becomes assignable only by a host heartbeat
      that finds it recoverable, with an allocation in use or recycled for bad health. */
  lemma WokenByHeartbeat(safe: set<string>, st: Pool, e: Event, s: nat)
    requires Inv(safe, st) && Fair(st, e) && s in st.sessions
    requires Holders(st.leases, s) != {} && !st.sessions[s].state.Assignable()
    requires s in Next(safe, st, e).sessions && Next(safe, st, e).sessions[s].state.Assignable()
    ensures e.step.HeartbeatSessionStep? && e.step.s == s && Recoverable(st, s, e.cfg.operational)
    ensures
      var a := st.sessions[s].allocation;
      && a in st.allocations
      && (st.allocations[a].Usable()
          || (st.allocations[a].state.AllocDraining? && st.allocations[a].reason.UnhealthyRecycle?))
  {
    var id :| id in Holders(st.leases, s);
    assert LeaseRow(st.sessions, st.leases[id]);
    hide Inv, Next, Licence, Fair;
    StepRests(safe, st, e);
    assert s in Licence(st, e).wakes;
    Wakes(st, e, s);
  }

  lemma StepRests(safe: set<string>, st: Pool, e: Event)
    requires Inv(safe, st) && Fair(st, e)
    ensures Rests(Licence(st, e), st, Next(safe, st, e))
  {
    hide Inv, Next, Licence, Fair, Evolves, Owned, Quiet, Lifecycle, Admits, BarrierHolds, Grants, BatchClosed;
    StepProgress(safe, st, e);
  }

  // ----- quarantined Desktops -----

  /** A Desktop that must not be reused: quarantined, behind its barrier. */
  predicate Condemned(st: Pool, s: nat) {
    s in st.sessions && !st.sessions[s].quarantine.NoQuarantine? && st.sessions[s].blockedAt.Some?
  }

  /** The host reports a native fault it cannot confirm. */
  predicate PardonStep(st: Pool, e: Event, s: nat) {
    e.step.SessionFaultStep? && e.step.s == s && Pardons(st, s, e.step.token, e.step.confirmed)
  }

  lemma PardonedIsFree(safe: set<string>, st: Pool, e: Event, s: nat)
    requires PardonStep(st, e, s)
    ensures !Condemned(Next(safe, st, e), s)
  {
  }

  lemma CondemnedBarrier(safe: set<string>, st: Pool, e: Event, s: nat)
    requires Inv(safe, st) && Fair(st, e) && Condemned(st, s)
    ensures
      var su := Next(safe, st, e);
      s in su.sessions && su.sessions[s].blockedAt.Some? && Holders(su.leases, s) <= Holders(st.leases, s)
  {
    hide Inv, Holders;
    if s in Licence(st, e).clears {
      ClearsByConfirmation(st, e, s);
      hide CompleteRelease;
      AckArms(safe, st, e.cfg, s, e.step.token, e.step.id, e.step.success, e.now);
    } else {
      hide Next, Licence;
      ArmedStep(safe, st, e, s, st.sessions[s].blockedAt.value);
    }
  }

  /** Exactly the unconfirmed fault ends a condemnation, and until then nobody gets in. */
  lemma CondemnedStep(safe: set<string>, st: Pool, e: Event, s: nat)
    requires Inv(safe, st) && Fair(st, e) && Condemned(st, s)
    ensures Condemned(Next(safe, st, e), s) <==> !PardonStep(st, e, s)
    ensures Holders(Next(safe, st, e).leases, s) <= Holders(st.leases, s)
  {
    hide Inv, Next, Licence, Fair, Holders, PardonStep;
    CondemnedBarrier(safe, st, e, s);
    if PardonStep(st, e, s) {
      PardonedIsFree(safe, st, e, s);
    } else {
      Unpardoned(st, e, s);
      StepRests(safe, st, e);
      assert HeldSession(st.sessions[s], Next(safe, st, e).sessions[s]);
    }
  }

  lemma Unpardoned(st: Pool, e: Event, s: nat)
    requires !PardonStep(st, e, s)
    ensures s !in Licence(st, e).pardons
  {
  }

  predicate NoPardon(safe: set<string>, st: Pool, es: seq<Event>, s: nat)
    decreases |es|
  {
    es == [] || (!PardonStep(st, es[0], s) && NoPardon(safe, Next(safe, st, es[0]), es[1..], s))
  }

  /** A condemned Desktop stays so and gains no owner along every run without such a fault. */
  lemma {:induction false} CondemnedRun(safe: set<string>, st: Pool, es: seq<Event>, s: nat)
    requires Inv(safe, st) && FairRun(safe, st, es) && Condemned(st, s) && NoPardon(safe, st, es, s)
    ensures Condemned(Run(safe, st, es), s) && Holders(Run(safe, st, es).leases, s) <= Holders(st.leases, s)
    decreases |es|
  {
    hide Inv, Next, Fair, Condemned, PardonStep, Holders, Progress, Licence;
    if es != [] {
      var su := Next(safe, st, es[0]);
      CondemnedStep(safe, st, es[0], s);
      StepProgress(safe, st, es[0]);
      ProgressInv(safe, es[0].cfg.target, Licence(st, es[0]), st, su);
      CondemnedRun(safe, su, es[1..], s);
    }
  }
}
