/** What one step may make of a lease: the successor states of every lease state, for
    every transaction and every stale read. */
module PoolLifecycle {
  import opened PoolRows
  import opened PoolInvariant
  import opened PoolCalm
  import opened PoolRefresh
  import opened PoolClient
  import opened PoolHost
  import opened PoolHostProofs
  import opened PoolGrant
  import opened PoolSteps
  import opened PoolStepProofs

  /** The states that may follow in one step. `over` says that the Desktop of the lease
      is over afterwards. A protocol-1 lease is taken without an offer. */
  predicate Follows(protocol: nat, l: LeaseState, m: LeaseState, over: bool) {
    match l
    case Queued => if protocol >= 2
                   then m.Queued? || m.Offered? || m.Failed? || m.Cancelled? || m.Expired?
                   else !m.Attaching? && !m.Released?
    case Offered => if protocol >= 2
                    then m.Queued? || m.Offered? || m.Attaching? || m.Failed? || m.Cancelled? || m.Expired?
                    else !m.Attaching? && !m.Released?
    case Leased => m.Leased? || m.Active? || m.Releasing? || m.Failed? || m.Cancelled? || m.Expired? || (m.Queued? && over)
    case Attaching => m.Attaching? || m.Active? || m.Releasing? || m.Failed? || (m.Queued? && over)
    case Active => m.Active? || m.Releasing? || m.Failed? || (m.Queued? && over)
    case Releasing => m.Releasing? || m.Released? || m.Failed? || (m.Queued? && over)
    case _ => m == l
  }

  lemma StepSuccessor(safe: set<string>, st: Pool, e: Event, id: nat)
    requires Inv(safe, st) && Fair(st, e) && id in st.leases
    ensures
      var su := Next(safe, st, e);
      && id in su.leases && Successor(Licence(st, e), id, st.leases[id], su.leases[id])
      && LeaseEvolves(st.leases[id], su.leases[id])
      && (su.leases[id].state.Attaching? && id !in Licence(st, e).attaches ==> st.leases[id].state.Attaching?)
      && (su.leases[id].state.Released? && id !in Licence(st, e).acks ==> st.leases[id].state.Released?)
  {
    hide Inv, Next, Fair, Licence, Successor, WavesFrozen, Owned, Admits, BarrierHolds, Rests, BatchClosed, Grants;
    StepProgress(safe, st, e);
  }

  lemma AcceptedAttaches(safe: set<string>, st: Pool, e: Event, id: nat)
    requires id in Licence(st, e).attaches
    ensures id in st.leases && st.leases[id].state.Offered? && st.leases[id].req.protocol >= 2
    ensures id in Next(safe, st, e).leases && Next(safe, st, e).leases[id].state.Attaching?
  {
    hide TargetGone, Transient;
  }

  lemma AcknowledgedReleases(st: Pool, e: Event, id: nat)
    requires id in Licence(st, e).acks
    ensures id in st.leases && st.leases[id].state.Releasing?
  {
  }

  /** Only a close requeues owners, and it ends their Desktop. */
  lemma ClosedIsOver(safe: set<string>, st: Pool, e: Event, s: nat)
    requires s in Licence(st, e).closes
    ensures e.step.CloseSessionStep? && e.step.s == s
    ensures s in Next(safe, st, e).sessions && Next(safe, st, e).sessions[s].state.Over()
  {
    hide FailCohortsOn, Vacated, Tainted;
    var success := e.step.success;
    var failed := FailCohortsOn(st, s, e.now);
    FailCohortsSessions(st, s, e.now);
    TaintedRows(failed, s, success);
    VacatedRest(Tainted(failed, s, success), e.cfg, s, !success && e.step.requeue, e.now);
  }

  /** A lease that owns a project leaves that state only for a later one of it, for
      failed, or, when its Desktop was closed in this step, for the queue. */
  lemma LeaseSuccessors(safe: set<string>, st: Pool, e: Event, id: nat)
    requires Inv(safe, st) && Fair(st, e) && id in st.leases
    ensures
      var su := Next(safe, st, e);
      var l := st.leases[id];
      && id in su.leases
      && Follows(l.req.protocol, l.state, su.leases[id].state,
                 e.step.CloseSessionStep? && l.session == Some(e.step.s)
                 && e.step.s in su.sessions && su.sessions[e.step.s].state.Over())
  {
    hide Inv, Next, Fair, Licence;
    StepSuccessor(safe, st, e, id);
    var l := st.leases[id];
    if id in Licence(st, e).attaches {
      AcceptedAttaches(safe, st, e, id);
    }
    if id in Licence(st, e).acks {
      AcknowledgedReleases(st, e, id);
    }
    if l.session.Some? && l.session.value in Licence(st, e).closes {
      ClosedIsOver(safe, st, e, l.session.value);
    }
  }
}
