/** Two-phase release over whole runs: who may finish a release, who may attach, and
    what must happen before a Desktop is used again. */
module PoolReuse {
  import opened PoolRows
  import opened PoolInvariant
  import opened PoolCalm
  import opened PoolRefresh
  import opened PoolRefreshProofs
  import opened PoolCursor
  import opened PoolClient
  import opened PoolClientProofs
  import opened PoolHost
  import opened PoolHostProofs
  import opened PoolGrant
  import opened PoolSteps
  import opened PoolStepProofs
  import opened PoolSafety

  /** The state before step `k` of a run. */
  function Before(safe: set<string>, st: Pool, es: seq<Event>, k: nat): Pool
    requires k <= |es|
  {
    Run(safe, st, es[..k])
  }

  lemma BeforeLater(safe: set<string>, st: Pool, es: seq<Event>, k: nat)
    requires es != [] && k <= |es| - 1
    ensures Before(safe, st, es, k + 1) == Before(safe, Next(safe, st, es[0]), es[1..], k)
  {
    hide Next;
    assert es[..k + 1][0] == es[0] && es[..k + 1][1..] == es[1..][..k];
  }

  lemma BeforeFirst(safe: set<string>, st: Pool, es: seq<Event>)
    ensures Before(safe, st, es, 0) == st
  {
    hide Next;
    assert es[..0] == [];
  }

  // ----- a release is finished by the host alone -----

  /** Step `k` is a host's confirmation that the project of `id` is closed. */
  predicate ConfirmsAt(safe: set<string>, st: Pool, es: seq<Event>, k: nat, id: nat)
    requires k < |es|
  {
    var step := es[k].step;
    && step.CompleteReleaseStep? && step.id == id && step.success
    && MayAcknowledge(Before(safe, st, es, k), step.s, step.token, id)
  }

  lemma NewlyReleased(safe: set<string>, st: Pool, e: Event, id: nat)
    requires Inv(safe, st) && Fair(st, e)
    requires id in Next(safe, st, e).leases && Next(safe, st, e).leases[id].state.Released?
    requires id in st.leases ==> !st.leases[id].state.Released?
    ensures e.step.CompleteReleaseStep? && e.step.id == id && e.step.success
    ensures MayAcknowledge(st, e.step.s, e.step.token, id)
  {
    hide Inv, Next, Evolves, Owned, Lifecycle, Rests, Admits, BarrierHolds, Grants, BatchClosed;
    StepProgress(safe, st, e);
    assert id in Licence(st, e).acks;
  }

  /** A lease is released only by a host that owns its Desktop and was asked to close it. */
  lemma {:induction false} ReleasedByHost(safe: set<string>, st: Pool, es: seq<Event>, id: nat)
    requires Inv(safe, st) && FairRun(safe, st, es)
    requires id in Run(safe, st, es).leases && Run(safe, st, es).leases[id].state.Released?
    requires id in st.leases ==> !st.leases[id].state.Released?
    ensures exists k :: 0 <= k < |es| && ConfirmsAt(safe, st, es, k, id)
    decreases |es|
  {
    hide Inv, Next, Fair, Progress, Licence, MayAcknowledge;
    var su := Next(safe, st, es[0]);
    if id in su.leases && su.leases[id].state.Released? {
      NewlyReleased(safe, st, es[0], id);
      BeforeFirst(safe, st, es);
      assert ConfirmsAt(safe, st, es, 0, id);
    } else {
      StepProgress(safe, st, es[0]);
      ProgressInv(safe, es[0].cfg.target, Licence(st, es[0]), st, su);
      ReleasedByHost(safe, su, es[1..], id);
      var k :| 0 <= k < |es[1..]| && ConfirmsAt(safe, su, es[1..], k, id);
      BeforeLater(safe, st, es, k);
      assert ConfirmsAt(safe, st, es, k + 1, id);
    }
  }

  // ----- nobody attaches to a Desktop that should drain -----

  /** The Desktop takes this lease in: no drain requested, batch open, barrier
      disarmed, nothing closing, and a pin that still holds. */
  ghost predicate OpenFor(st: Pool, id: nat) {
    && id in st.leases && st.leases[id].state.Offered?
    && st.leases[id].session.Some? && st.leases[id].session.value in st.sessions
    && var s := st.leases[id].session.value;
       && st.sessions[s].state.Assignable() && st.sessions[s].drainAt.None?
       && !st.sessions[s].isSealed && st.sessions[s].blockedAt.None?
       && (forall o :: o in st.leases && st.leases[o].session == Some(s) ==> !st.leases[o].state.Releasing?)
       && (st.leases[id].req.pin != 0 ==>
             st.leases[id].req.pin in st.reservations && st.reservations[st.leases[id].req.pin].state.Consumed?
             && st.reservations[st.leases[id].req.pin].session == s)
  }

  lemma AttachesOpen(st: Pool, cfg: Config, id: nat, token: string, now: int)
    requires Attaches(st, cfg, id, token, now)
    ensures OpenFor(st, id)
  {
    hide SameContract;
  }

  /** The step by which a lease starts to attach is an acceptance, of an open offer. */
  lemma AttachesOnlyWhenOpen(safe: set<string>, st: Pool, e: Event, id: nat)
    requires Reachable(safe, st) && Fair(st, e)
    requires id in Next(safe, st, e).leases && Next(safe, st, e).leases[id].state.Attaching?
    requires id in st.leases ==> !st.leases[id].state.Attaching?
    ensures e.step.AcceptLeaseStep? && e.step.id == id && OpenFor(st, id)
  {
    hide Reachable, Inv, Next, Evolves, Owned, Lifecycle, Rests, Admits, BarrierHolds, Grants, BatchClosed, Attaches, OpenFor;
    ReachableInv(safe, st);
    StepProgress(safe, st, e);
    assert id in Licence(st, e).attaches;
    AttachesOpen(st, e.cfg, id, e.step.token, e.now);
  }

  // ----- the reuse barrier -----

  /** The step confirms a release on Desktop `s`. */
  predicate Confirms(st: Pool, e: Event, s: nat) {
    e.step.CompleteReleaseStep? && e.step.s == s && MayAcknowledge(st, s, e.step.token, e.step.id)
  }

  /** No release on Desktop `s` is confirmed in the run; refused confirmations may occur. */
  predicate NoAck(safe: set<string>, st: Pool, es: seq<Event>, s: nat)
    decreases |es|
  {
    es == [] || (!Confirms(st, es[0], s) && NoAck(safe, Next(safe, st, es[0]), es[1..], s))
  }

  /** Step `k` is a host heartbeat of `s` later than `t` that finds nothing to close. */
  predicate ClearsAt(safe: set<string>, st: Pool, es: seq<Event>, k: nat, s: nat, t: int)
    requires k < |es|
  {
    var su := Before(safe, st, es, k);
    && es[k].step.HeartbeatSessionStep? && es[k].step.s == s && es[k].now > t
    && s in su.sessions && su.sessions[s].state.Assignable() && !ClosingOn(su.leases, s)
  }

  lemma OnlyHeartbeatClears(st: Pool, e: Event, s: nat)
    requires s in Licence(st, e).clears && !Confirms(st, e, s)
    ensures e.step.HeartbeatSessionStep? && e.step.s == s && s in st.sessions && BarrierMayClear(st, s, e.now)
  {
  }

  lemma ArmedStep(safe: set<string>, st: Pool, e: Event, s: nat, t: int)
    requires Inv(safe, st) && Fair(st, e) && s in st.sessions && st.sessions[s].blockedAt == Some(t)
    requires s !in Licence(st, e).clears
    ensures
      var su := Next(safe, st, e);
      && Inv(safe, su) && s in su.sessions && su.sessions[s].blockedAt == Some(t)
      && Holders(su.leases, s) <= Holders(st.leases, s)
  {
    hide Inv, Next, Evolves, Owned, Lifecycle, Rests, Admits, Grants, BatchClosed, Quiet, Licence, Fair;
    StepProgress(safe, st, e);
  }

  /** A Desktop whose barrier was armed at `t` gains an owner only after a host
      heartbeat later than `t` that saw no project still closing. */
  lemma {:induction false} BarrierBeforeReuse(safe: set<string>, st: Pool, es: seq<Event>, s: nat, t: int)
    requires Inv(safe, st) && FairRun(safe, st, es) && NoAck(safe, st, es, s)
    requires s in st.sessions && st.sessions[s].blockedAt == Some(t)
    requires !(Holders(Run(safe, st, es).leases, s) <= Holders(st.leases, s))
    ensures exists k :: 0 <= k < |es| && ClearsAt(safe, st, es, k, s, t)
    decreases |es|
  {
    hide Inv, Next, Fair, Licence, BarrierMayClear, Confirms;
    if s in Licence(st, es[0]).clears {
      OnlyHeartbeatClears(st, es[0], s);
      ClearedAtZero(safe, st, es, s, t);
    } else {
      var su := Next(safe, st, es[0]);
      ArmedStep(safe, st, es[0], s, t);
      BarrierBeforeReuse(safe, su, es[1..], s, t);
      var k :| 0 <= k < |es[1..]| && ClearsAt(safe, su, es[1..], k, s, t);
      BeforeLater(safe, st, es, k);
      assert ClearsAt(safe, st, es, k + 1, s, t);
    }
  }

  lemma ClearedAtZero(safe: set<string>, st: Pool, es: seq<Event>, s: nat, t: int)
    requires es != [] && es[0].step.HeartbeatSessionStep? && es[0].step.s == s
    requires s in st.sessions && st.sessions[s].blockedAt == Some(t) && BarrierMayClear(st, s, es[0].now)
    ensures ClearsAt(safe, st, es, 0, s, t)
  {
    BeforeFirst(safe, st, es);
    hide Next, Run;
  }

  /** The host's confirmation arms the barrier at its own time, and lets nobody in. */
  lemma AckArms(safe: set<string>, st: Pool, cfg: Config, s: nat, token: string, id: nat, success: bool, now: int)
    requires Inv(safe, st) && MayAcknowledge(st, s, token, id)
    ensures
      var su := CompleteRelease(st, cfg, s, token, id, success, now);
      && s in su.sessions && su.sessions[s].blockedAt == Some(now)
      && Holders(su.leases, s) <= Holders(st.leases, s) - {id}
  {
    hide Inv, Holders, Acknowledged, RefreshSessions, RefreshReservations, PlaceBatch, Kept, Registered;
    HeldByNonTerminal(safe, st, id);
    var s1 := Acknowledged(st, s, id, success, now);
    AckRows(st, s, id, success, now);
    AckStarted(safe, st, s, id);
    AcknowledgedKept(safe, cfg.target, st, s, id, success, now);
    KeptInv(safe, cfg.target, AckMay(s, id, success), st, s1);
    AckRegistered(safe, st, s, id, success, now);
    AfterAckKept(safe, s1, cfg, s, now);
    KeptArmed(safe, cfg.target, s1, CompleteRelease(st, cfg, s, token, id, success, now), s);
  }

  lemma KeptArmed(safe: set<string>, target: int, st: Pool, su: Pool, s: nat)
    requires Kept(safe, target, NOTHING, st, su) && s in st.sessions && st.sessions[s].blockedAt.Some?
    ensures s in su.sessions && su.sessions[s].blockedAt == st.sessions[s].blockedAt
    ensures Holders(su.leases, s) <= Holders(st.leases, s)
  {
    hide Inv, Evolves, Owned, Quiet, Lifecycle, Rests, Arms, NoWave, Admits, Barred, Holders;
  }

  lemma AckRows(st: Pool, s: nat, id: nat, success: bool, now: int)
    requires s in st.sessions && !st.sessions[s].state.Over() && id in st.leases
    ensures
      var su := Acknowledged(st, s, id, success, now);
      && s in su.sessions && su.sessions[s].blockedAt == Some(now)
      && Holders(su.leases, s) <= Holders(st.leases, s) - {id}
  {
  }

  /** Between a host's confirmation and the next placement on that Desktop there is a
      strictly later host heartbeat that saw no project closing. */
  lemma HeartbeatBetweenAckAndReuse(safe: set<string>, st: Pool, cfg: Config, s: nat, token: string, id: nat,
                                    success: bool, now: int, es: seq<Event>)
    requires Inv(safe, st) && MayAcknowledge(st, s, token, id)
    requires FairRun(safe, CompleteRelease(st, cfg, s, token, id, success, now), es)
    requires NoAck(safe, CompleteRelease(st, cfg, s, token, id, success, now), es, s)
    requires
      var su := CompleteRelease(st, cfg, s, token, id, success, now);
      !(Holders(Run(safe, su, es).leases, s) <= Holders(su.leases, s))
    ensures
      var su := CompleteRelease(st, cfg, s, token, id, success, now);
      exists k :: 0 <= k < |es| && ClearsAt(safe, su, es, k, s, now)
  {
    hide Inv, Kept, Next, Run, FairRun, CompleteRelease, MayAcknowledge, Holders, NoAck, ClearsAt;
    var su := CompleteRelease(st, cfg, s, token, id, success, now);
    AckArms(safe, st, cfg, s, token, id, success, now);
    assert Inv(safe, su) by {
      CompleteReleaseKept(safe, st, cfg, s, token, id, success, now);
      KeptInv(safe, cfg.target, ReleaseMay(st, s, token, id, success), st, su);
    }
    BarrierBeforeReuse(safe, su, es, s, now);
  }

  // ----- every closing project is behind a barrier -----

  /** Every solver-timeout report of the run still sees the Desktop of its lease. */
  predicate TimeoutsCovered(safe: set<string>, st: Pool, es: seq<Event>)
    decreases |es|
  {
    es == [] ||
    (&& (es[0].step.SolverTimeoutStep? ==> TimeoutCovered(st, es[0].step.id, es[0].step.seenSession))
     && TimeoutsCovered(safe, Next(safe, st, es[0]), es[1..]))
  }

  lemma BarredStep(safe: set<string>, st: Pool, e: Event)
    requires Inv(safe, st) && Fair(st, e) && Barred(st)
    requires e.step.SolverTimeoutStep? ==> TimeoutCovered(st, e.step.id, e.step.seenSession)
    ensures Barred(Next(safe, st, e))
  {
    hide Inv, Barred, Arms, Progress, TimeoutCovered, Fair, Licence;
    if e.step.SolverTimeoutStep? {
      SolverTimeoutBarred(safe, st, e.step.id, e.step.seenSession, e.step.seenAllocation, e.step.until,
                          e.step.fault, e.now);
    } else {
      StepAdvances(safe, st, e);
    }
  }

  /** Along every run whose solver-timeout reports are covered, a Desktop with a
      releasing lease has its reuse barrier armed. */
  lemma {:induction false} ClosingIsBarred(safe: set<string>, st: Pool, es: seq<Event>)
    requires Inv(safe, st) && Barred(st) && FairRun(safe, st, es) && TimeoutsCovered(safe, st, es)
    ensures Barred(Run(safe, st, es))
    decreases |es|
  {
    hide Inv, Next, Barred, Fair, Licence, Progress, TimeoutCovered;
    if es != [] {
      BarredStep(safe, st, es[0]);
      StepProgress(safe, st, es[0]);
      ProgressInv(safe, es[0].cfg.target, Licence(st, es[0]), st, Next(safe, st, es[0]));
      ClosingIsBarred(safe, Next(safe, st, es[0]), es[1..]);
    }
  }
}
