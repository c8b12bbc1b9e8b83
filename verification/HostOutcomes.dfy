/** What the transactions of a session host do, exactly, on rows. */
module PoolHostOutcomes {
  import opened PoolRows
  import opened PoolTerms
  import opened PoolInvariant
  import opened PoolCalm
  import opened PoolRefresh
  import opened PoolRefreshProofs
  import opened PoolCursor
  import opened PoolHost
  import opened PoolHostProofs
  import opened PoolClient
  import opened PoolReaping
  import opened PoolRefreshing
  import opened PoolFitting
  import opened PoolClientOutcomes

  /** The request carries the token that the Desktop was registered with. */
  predicate FromHost(st: Pool, s: nat, token: string) {
    s in st.sessions && token != "" && st.sessions[s].token == token
  }

  // ----- a start -----

  /** A start is claimed for the ordered allocation and node by the first host that asks, and
      confirmed to it; the first claim keeps its time. */
  ghost predicate StartClaimed(st: Pool, su: Pool, s: nat, allocation: nat, node: string, host: string, now: int)
  {
    if s in st.sessions && st.sessions[s].state.Starting? && host != "" && st.sessions[s].host in {"", host}
       && st.sessions[s].allocation == allocation && st.sessions[s].node == node && allocation in st.allocations then
      su == st.(sessions := st.sessions[s := st.sessions[s].(host := host, claimedAt := Armed(st.sessions[s].claimedAt, now))])
    else su == st
  }

  lemma ClaimOutcome(st: Pool, s: nat, allocation: nat, node: string, host: string, now: int)
    ensures StartClaimed(st, ClaimStart(st, s, allocation, node, host, now), s, allocation, node, host, now)
  {
  }

  /** The host that claimed a start gives it up. */
  ghost predicate StartGivenUp(st: Pool, su: Pool, s: nat, host: string)
  {
    if s in st.sessions && st.sessions[s].state.Starting? && st.sessions[s].host == host then
      su == st.(sessions := st.sessions[s := st.sessions[s].(state := SessionFailed, fault := OtherFault)])
    else su == st
  }

  lemma FailStartOutcome(st: Pool, s: nat, host: string)
    ensures StartGivenUp(st, FailStart(st, s, host), s, host)
  {
  }

  /** The acknowledgement of the claimed start came after its timeout. */
  predicate IsLate(x: Session) {
    x.state.Unhealthy? && x.fault.StartAckTimeout? && x.started.None? && x.token == ""
  }

  predicate StillOpen(allocations: Allocations, a: nat) {
    a in allocations && (allocations[a].state.Warm? || allocations[a].state.InUse? || allocations[a].state.AllocDraining?)
  }

  predicate Registers(st: Pool, s: nat, host: string, profile: string) {
    s in st.sessions &&
    var x := st.sessions[s];
    && host != "" && x.host == host && x.profile in {"", profile}
    && (x.state.Starting? || (IsLate(x) && StillOpen(st.allocations, x.allocation)))
  }

  /** The allocation drains for the health of its Desktops. */
  predicate RecyclesForHealth(allocations: Allocations, a: nat) {
    a in allocations && allocations[a].state.AllocDraining? && allocations[a].reason.UnhealthyRecycle?
  }

  /** It drains for anything else. */
  predicate DrainsOtherwise(allocations: Allocations, a: nat) {
    a in allocations && allocations[a].state.AllocDraining? && !allocations[a].reason.UnhealthyRecycle?
  }

  /** The row: alive from now on, and ready unless it should drain at once. */
  predicate RegisteredAs(x: Session, y: Session, ready: bool, endpoint: string, process: string, profile: string,
                         token: string, now: int)
  {
    && y.state == (if ready then Ready else Draining)
    && y.endpoint == endpoint && y.process == process && y.token == token
    && (profile != "" ==> y.profile == profile) && (profile == "" ==> y.profile == x.profile)
    && y.started == Some(now) && y.heartbeat == Some(now) && y.fault.NoFault? && y.drainAt.None?
    && y == x.(state := y.state, endpoint := endpoint, process := process, profile := y.profile, token := token,
               started := y.started, heartbeat := y.heartbeat, fault := y.fault, drainAt := y.drainAt)
  }

  /** All Desktops of the allocation are healthy and out of quarantine. */
  predicate AllHealthy(ss: Sessions, a: nat) {
    forall t :: t in ss && ss[t].allocation == a ==> !ss[t].state.Unhealthy? && ss[t].quarantine.NoQuarantine?
  }

  /** The allocation returns to service when its recycling has no cause left. */
  predicate MayReturn(before: Allocations, after: Allocations, ss: Sessions, a: nat, recovered: bool) {
    after == if recovered && RecyclesForHealth(before, a) && AllHealthy(ss, a)
             then before[a := before[a].(state := InUse, reason := ProjectDemand)] else before
  }

  lemma ReturnsIs(st: Pool, a: nat)
    ensures
      var su := RestoreAllocation(st, a);
      su == st.(allocations := su.allocations) && MayReturn(st.allocations, su.allocations, st.sessions, a, true)
  {
  }

  /** A host that claimed the start registers it, in time or late; it is ready if the pool is
      enabled and a late one's allocation does not drain for another reason. */
  ghost predicate DesktopRegistered(st: Pool, su: Pool, s: nat, host: string, endpoint: string, process: string, profile: string,
                                    token: string, enabled: bool, now: int)
  {
    if Registers(st, s, host, profile) then
      var x := st.sessions[s];
      var ready := enabled && (x.state.Starting? || !DrainsOtherwise(st.allocations, x.allocation));
      && su == st.(sessions := su.sessions, allocations := su.allocations)
      && s in su.sessions && su.sessions == st.sessions[s := su.sessions[s]]
      && RegisteredAs(x, su.sessions[s], ready, endpoint, process, profile, token, now)
      && MayReturn(st.allocations, su.allocations, su.sessions, x.allocation, ready && !x.state.Starting?)
    else su == st
  }

  lemma RegisterOutcome(st: Pool, s: nat, host: string, endpoint: string, process: string, profile: string, token: string,
                        enabled: bool, now: int)
    ensures DesktopRegistered(st, RegisterSession(st, s, host, endpoint, process, profile, token, enabled, now), s, host, endpoint, process, profile, token, enabled, now)
  {
    if Registers(st, s, host, profile) {
      var x := st.sessions[s];
      var ready := enabled && (x.state.Starting? || !DrainsOtherwise(st.allocations, x.allocation));
      var y := RegisteredRow(x, if ready then Ready else Draining, endpoint, process, profile, token, now);
      assert RegisteredAs(x, y, ready, endpoint, process, profile, token, now);
      ReturnsIs(st.(sessions := st.sessions[s := y]), x.allocation);
      hide RestoreAllocation, RegisteredRow, RegisteredAs, AllHealthy;
    }
  }

  // ----- a heartbeat -----

  /** The barrier may be lifted: the Desktop works without fault, the heartbeat is later than
      the barrier, and no project is left to close. */
  predicate Lifts(st: Pool, s: nat, now: int)
    requires s in st.sessions
  {
    var x := st.sessions[s];
    && Works(x) && x.fault.NoFault? && x.quarantine.NoQuarantine?
    && x.blockedAt.Some? && x.blockedAt.value < now
    && forall id :: id in st.leases && st.leases[id].session == Some(s) ==> !st.leases[id].state.Releasing?
  }

  /** The Desktop was only missed or suspected, and its allocation can still serve. */
  predicate ComesBack(st: Pool, s: nat, operational: bool)
    requires s in st.sessions
  {
    var x := st.sessions[s];
    && operational && x.state.Unhealthy? && x.quarantine.NoQuarantine?
    && x.fault in {HeartbeatTimeout, TransportSuspect, NativeSuspect}
    && (InService(st.allocations, x.allocation) || RecyclesForHealth(st.allocations, x.allocation))
  }

  /** Back at work: ready when vacant and busy otherwise, with its allocation if that is healthy. */
  ghost predicate CameBack(st: Pool, su: Pool, s: nat, now: int)
    requires s in st.sessions
  {
    var x := st.sessions[s];
    && su == st.(sessions := su.sessions, allocations := su.allocations)
    && su.sessions == st.sessions[s := x.(state := if Vacant(st.leases, s) then Ready else Busy, fault := NoFault,
                                          drainAt := None, heartbeat := Some(now))]
    && MayReturn(st.allocations, su.allocations, su.sessions, x.allocation, true)
  }

  /** A refresh and a placement pass. */
  ghost predicate Serves(st: Pool, su: Pool, cfg: Config, now: int) {
    exists mid: Pool :: RefreshRuns(st, mid, now) &&
      var batch := Batch(Polling(mid, cfg, now), mid.cursor);
      Turns(mid.(cursor := NextCursor(batch)), su, cfg, batch, now)
  }

  lemma ServesIs(safe: set<string>, st: Pool, cfg: Config, now: int)
    requires Inv(safe, st) && cfg.operational
    ensures Serves(st, PlaceBatch(RefreshReservations(st, now), cfg, now), cfg, now)
  {
    hide Inv, Ebbs, RefreshReservations, RefreshRuns, PlaceBatch, Turns, Batch, Polling;
    RefreshOutcome(st, now);
    RefreshReservationsEbbs(safe, cfg.target, st, now);
    EbbsInv(safe, cfg.target, st, RefreshReservations(st, now));
    PassOutcome(safe, RefreshReservations(st, now), cfg, now);
  }

  /** A live heartbeat brings a Desktop back that may come back; otherwise it is recorded, lifts
      the barrier if it may, and, with the pool operational, lets queued leases in then. */
  ghost predicate HostBeats(st: Pool, su: Pool, cfg: Config, s: nat, now: int)
    requires s in st.sessions
  {
    var x := st.sessions[s];
    var seen := st.(sessions := st.sessions[s := x.(heartbeat := Some(now),
                                                    blockedAt := if Lifts(st, s, now) then None else x.blockedAt)]);
    if ComesBack(st, s, cfg.operational) then CameBack(st, su, s, now)
    else if Lifts(st, s, now) && cfg.operational then Serves(seen, su, cfg, now)
    else su == seen
  }

  lemma BeatTerms(st: Pool, s: nat, operational: bool, now: int)
    requires s in st.sessions
    ensures BarrierMayClear(st, s, now) <==> Lifts(st, s, now)
    ensures Recoverable(st, s, operational) <==> ComesBack(st, s, operational)
  {
  }

  /** The row of a Desktop that is back. */
  function BackAtWork(x: Session, vacant: bool, now: int): Session {
    x.(state := if vacant then Ready else Busy, fault := NoFault, drainAt := None, heartbeat := Some(now))
  }

  lemma RecoveredIs(st: Pool, s: nat, now: int)
    requires s in st.sessions
    ensures
      var x := st.sessions[s];
      Recovered(st.(sessions := st.sessions[s := x.(heartbeat := Some(now))]), s, now)
      == RestoreAllocation(st.(sessions := st.sessions[s := BackAtWork(x, NoHolder(st.leases, s), now)]), x.allocation)
  {
    hide RestoreAllocation, NoHolder;
    var x := st.sessions[s];
    var seen := st.sessions[s := x.(heartbeat := Some(now))];
    assert seen[s := BackAtWork(x, NoHolder(st.leases, s), now)]
        == st.sessions[s := BackAtWork(x, NoHolder(st.leases, s), now)];
  }

  lemma CameBackIs(st: Pool, s: nat, now: int)
    requires s in st.sessions
    ensures
      var x := st.sessions[s];
      CameBack(st, Recovered(st.(sessions := st.sessions[s := x.(heartbeat := Some(now))]), s, now), s, now)
  {
    hide Recovered, RestoreAllocation, Vacant, NoHolder, MayReturn;
    var x := st.sessions[s];
    SameOwners(st.leases, s);
    RecoveredIs(st, s, now);
    ReturnsIs(st.(sessions := st.sessions[s := BackAtWork(x, Vacant(st.leases, s), now)]), x.allocation);
  }

  ghost predicate HostHeard(st: Pool, su: Pool, cfg: Config, s: nat, token: string, alive: bool, now: int)
  {
    if FromHost(st, s, token) && alive && !st.sessions[s].state.Starting? && !SessionOver(st.sessions[s]) then
      HostBeats(st, su, cfg, s, now)
    else su == st
  }

  lemma HostHeartbeatOutcome(safe: set<string>, st: Pool, cfg: Config, s: nat, token: string, alive: bool, now: int)
    requires Inv(safe, st)
    ensures HostHeard(st, HeartbeatSession(st, cfg, s, token, alive, now), cfg, s, token, alive, now)
  {
    hide Inv, BarrierMayClear, Recoverable, Recovered, Lifts, RefreshReservations, PlaceBatch, Serves, CameBack, Kept;
    if FromHost(st, s, token) && alive && !st.sessions[s].state.Starting? && !SessionOver(st.sessions[s]) {
      BeatTerms(st, s, cfg.operational, now);
      if ComesBack(st, s, cfg.operational) {
        NotBoth(st, s, now);
        CameBackIs(st, s, now);
      } else if Lifts(st, s, now) && cfg.operational {
        var su := st.(sessions := st.sessions[s := st.sessions[s].(blockedAt := None, heartbeat := Some(now))]);
        ClearSettles(safe, cfg.target, st, s, now);
        KeptInv(safe, cfg.target, NOTHING.(clears := {s}), st, su);
        ServesIs(safe, su, cfg, now);
      }
    }
  }

  lemma NotBoth(st: Pool, s: nat, now: int)
    requires s in st.sessions && st.sessions[s].state.Unhealthy?
    ensures !Lifts(st, s, now)
  {
  }

  // ----- the confirmation of a release -----

  /** The host answers for a releasing lease on its Desktop. */
  predicate Answers(st: Pool, s: nat, token: string, id: nat) {
    FromHost(st, s, token) && id in st.leases && st.leases[id].session == Some(s) && st.leases[id].state.Releasing?
  }

  /** The Desktop after the answer: behind a barrier of this moment, and in quarantine if the
      project could not be closed. */
  function Answered(x: Session, success: bool, now: int): Session {
    if SessionOver(x) then x
    else
      var y := x.(blockedAt := Some(now));
      if success then y
      else y.(state := Unhealthy, fault := OtherFault, quarantine := OtherQuarantine, quarantineUntil := Some(now),
              drainAt := Some(now))
  }

  /** The lease is over, and its Desktop rests behind the barrier. */
  ghost predicate AnswerWritten(st: Pool, su: Pool, s: nat, id: nat, success: bool, now: int)
    requires s in st.sessions && id in st.leases
  {
    && su == st.(leases := su.leases, sessions := su.sessions)
    && su.leases == st.leases[id := st.leases[id].(state := if success then Released else Failed)]
    && su.sessions == st.sessions[s := Rested(Answered(st.sessions[s], success, now), Vacant(su.leases, s))]
  }

  /** The answer is written and the reservations are refreshed; with the pool operational, a
      second refresh and a placement pass follow. */
  ghost predicate AnswerTaken(st: Pool, su: Pool, cfg: Config, s: nat, id: nat, success: bool, now: int)
    requires s in st.sessions && id in st.leases
  {
    exists written: Pool, mid: Pool ::
      AnswerWritten(st, written, s, id, success, now) && RefreshRuns(written, mid, now)
      && if cfg.operational then Serves(mid, su, cfg, now) else su == mid
  }

  lemma AnswerIs(st: Pool, s: nat, id: nat, success: bool, now: int)
    requires s in st.sessions && id in st.leases
    ensures AnswerWritten(st, RefreshSessions(Acknowledged(st, s, id, success, now), {s}), s, id, success, now)
  {
    var mid := Acknowledged(st, s, id, success, now);
    AnsweredIs(st.sessions[s], success, now);
    SameOwners(mid.leases, s);
    RestedIs(Answered(st.sessions[s], success, now), Vacant(mid.leases, s));
    hide AfterAck, Answered, Refreshed, Rested, Vacant, NoHolder;
    var su := RefreshSessions(mid, {s});
    assert su.sessions == st.sessions[s := su.sessions[s]];
  }

  lemma AnsweredIs(x: Session, success: bool, now: int)
    ensures AfterAck(x, success, now) == Answered(x, success, now)
  {
  }

  lemma AnswerInv(safe: set<string>, st: Pool, cfg: Config, s: nat, id: nat, success: bool, now: int)
    requires Inv(safe, st) && s in st.sessions && id in st.leases && st.leases[id].session == Some(s)
    requires st.leases[id].state.Releasing? && FromHost(st, s, st.sessions[s].token)
    ensures
      var s2 := RefreshSessions(Acknowledged(st, s, id, success, now), {s});
      Inv(safe, s2) && Inv(safe, RefreshReservations(s2, now))
  {
    hide Inv, Kept, Ebbs, Acknowledged, RefreshSessions, RefreshReservations, Registered;
    var may := AckMay(s, id, success);
    var s1 := Acknowledged(st, s, id, success, now);
    var s2 := RefreshSessions(s1, {s});
    AckStarted(safe, st, s, id);
    AcknowledgedKept(safe, cfg.target, st, s, id, success, now);
    KeptInv(safe, cfg.target, may, st, s1);
    AckRegistered(safe, st, s, id, success, now);
    RefreshSessionsEbbs(safe, cfg.target, s1, {s});
    EbbsInv(safe, cfg.target, s1, s2);
    RefreshReservationsEbbs(safe, cfg.target, s2, now);
    EbbsInv(safe, cfg.target, s2, RefreshReservations(s2, now));
  }

  ghost predicate ReleaseConfirmed(st: Pool, su: Pool, cfg: Config, s: nat, token: string, id: nat, success: bool, now: int)
  {
    if Answers(st, s, token, id) then AnswerTaken(st, su, cfg, s, id, success, now) else su == st
  }

  lemma ReleaseOutcome(safe: set<string>, st: Pool, cfg: Config, s: nat, token: string, id: nat, success: bool, now: int)
    requires Inv(safe, st)
    ensures ReleaseConfirmed(st, CompleteRelease(st, cfg, s, token, id, success, now), cfg, s, token, id, success, now)
  {
    hide Inv, Acknowledged, RefreshSessions, RefreshReservations, PlaceBatch, AnswerWritten, RefreshRuns, Serves;
    if Answers(st, s, token, id) {
      var written := RefreshSessions(Acknowledged(st, s, id, success, now), {s});
      var mid := RefreshReservations(written, now);
      AnswerIs(st, s, id, success, now);
      RefreshOutcome(written, now);
      AnswerInv(safe, st, cfg, s, id, success, now);
      if cfg.operational {
        ServesIs(safe, mid, cfg, now);
      }
    }
  }

  // ----- faults, and the end of a Desktop -----

  /** Somebody may be solving: an owner beyond its offer whose lease has not expired. */
  predicate MaybeSolving(st: Pool, s: nat, now: int) {
    exists id :: id in st.leases && st.leases[id].session == Some(s) && now <= st.leases[id].expires
      && (st.leases[id].state.Leased? || st.leases[id].state.Attaching? || st.leases[id].state.Active?
          || st.leases[id].state.Releasing?)
  }

  /** A suspected Desktop is unhealthy without quarantine; while somebody may be solving it is
      not asked to drain and counts as heard of. */
  function SuspectedFault(x: Session, solving: bool, now: int): Session {
    if Works(x) || x.state.Unhealthy?
    then x.(state := Unhealthy, quarantine := NoQuarantine, fault := NativeSuspect, faultAt := Some(now),
            drainAt := if solving then None else Armed(x.drainAt, now),
            heartbeat := if solving then Some(now) else x.heartbeat)
    else x
  }

  /** A Desktop known to be dead is unhealthy in quarantine. */
  function ConfirmedFault(x: Session, fault: Fault, now: int): Session {
    if Works(x) || x.state.Draining? || x.state.Unhealthy?
    then x.(state := Unhealthy, quarantine := ConfirmedDeath, fault := fault, faultAt := Some(now),
            drainAt := Armed(x.drainAt, now))
    else x
  }

  lemma SolvingIs(st: Pool, s: nat, now: int)
    ensures SupervisedSolve(st, s, now) <==> MaybeSolving(st, s, now)
  {
  }

  /** An unconfirmed fault touches the Desktop alone; a confirmed one drains its allocation too. */
  ghost predicate FaultTaken(st: Pool, su: Pool, s: nat, token: string, confirmed: bool, fault: Fault, now: int)
  {
    if FromHost(st, s, token) then
      var x := st.sessions[s];
      if confirmed then
        && su == st.(sessions := st.sessions[s := ConfirmedFault(x, fault, now)], allocations := su.allocations)
        && AllocationDrains(st.allocations, su.allocations, x.allocation, FaultedRecycle)
      else su == st.(sessions := st.sessions[s := SuspectedFault(x, MaybeSolving(st, s, now), now)])
    else su == st
  }

  lemma FaultOutcome(st: Pool, s: nat, token: string, confirmed: bool, fault: Fault, now: int)
    ensures FaultTaken(st, SessionFault(st, s, token, confirmed, fault, now), s, token, confirmed, fault, now)
  {
    SolvingIs(st, s, now);
    hide SupervisedSolve, MaybeSolving, DrainAllocation, AllocationDrains;
    if FromHost(st, s, token) {
      var x := st.sessions[s];
      assert st.sessions[s := x] == st.sessions;
      DrainRows(st.(sessions := st.sessions[s := ConfirmedFault(x, fault, now)]), x.allocation, FaultedRecycle);
    }
  }

  /** A Desktop whose process is gone is closed if its row is still the one that was probed,
      draining or unhealthy, and no lease on it is unfinished. */
  ghost predicate DesktopReaped(st: Pool, su: Pool, s: nat, seen: Session)
  {
    if s in st.sessions && st.sessions[s] == seen && (seen.state.Draining? || seen.state.Unhealthy?)
       && forall id :: id in st.leases && st.leases[id].session == Some(s) ==> LeaseEnded(st.leases[id]) then
      su == st.(sessions := st.sessions[s := seen.(state := SessionClosed)])
    else su == st
  }

  lemma ReapOutcome(st: Pool, s: nat, seen: Session)
    ensures DesktopReaped(st, ReapDeadSession(st, s, seen), s, seen)
  {
  }
}
