/** When the next wave of native solves starts, when a batch stops, and when nothing happens:
    exactly, on lease, reservation and Desktop rows. */
module PoolWaveDecisions {
  import opened PoolRows
  import opened PoolTerms
  import opened PoolInvariant
  import opened PoolCalm
  import opened PoolRefresh
  import opened PoolRefreshProofs
  import opened PoolSolve
  import opened PoolSolveProofs
  import opened PoolClient
  import opened PoolClientProofs
  import opened PoolRefreshing

  /** An active lease on `s` that waits for its permit. */
  predicate Awaits(l: Lease, s: nat) {
    l.session == Some(s) && l.state.Active? && l.permit.None?
  }

  /** The lease was granted wave `g` of `s`. */
  predicate Granted(l: Lease, s: nat, g: nat) {
    l.session == Some(s) && l.permit == Some(g)
  }

  /** Its project is closed, and it marked exactly this Desktop and wave. */
  predicate Completed(l: Lease, s: nat, g: nat) {
    l.state.Released? && l.marker.Some? && l.marker.value.session == s && l.marker.value.wave == g
  }

  /** The batch is complete: everybody on the Desktop is active and every reservation of it
      has arrived, and it is full, exclusive, or may start underfilled. */
  predicate Assembled(st: Pool, s: nat, underfilled: bool)
    requires s in st.sessions
  {
    && !st.sessions[s].isSealed
    && Owners(st.leases, s) != {}
    && (forall id :: id in Owners(st.leases, s) ==> st.leases[id].state.Active?)
    && (forall r :: r in st.reservations && st.reservations[r].session == s && Stands(st.reservations[r]) ==>
          && st.reservations[r].state.Consumed?
          && exists id :: id in st.leases && st.reservations[r].lease == Some(id)
               && st.leases[id].session == Some(s) && st.leases[id].state.Active?)
    && (underfilled
        || |Owners(st.leases, s)| >= st.sessions[s].slots
        || exists id :: id in Owners(st.leases, s) && st.leases[id].req.exclusive)
  }

  /** The current wave succeeded, and somebody waits for the next one. */
  predicate Succeeded(st: Pool, s: nat)
    requires s in st.sessions
  {
    var g := st.sessions[s].wave;
    && st.sessions[s].isSealed
    && (exists id :: id in st.leases && Granted(st.leases[id], s, g))
    && (forall id :: id in st.leases && Granted(st.leases[id], s, g) ==> Completed(st.leases[id], s, g))
    && (exists id :: id in st.leases && Awaits(st.leases[id], s))
  }

  /** The current wave is over, and one of its members did not complete it. */
  predicate Broke(st: Pool, s: nat)
    requires s in st.sessions
  {
    var g := st.sessions[s].wave;
    && st.sessions[s].isSealed
    && (forall id :: id in st.leases && Granted(st.leases[id], s, g) ==> LeaseEnded(st.leases[id]))
    && (exists id :: id in st.leases && Granted(st.leases[id], s, g) && !Completed(st.leases[id], s, g))
  }

  /** The next wave is due. */
  predicate Due(st: Pool, s: nat, underfilled: bool) {
    s in st.sessions && Works(st.sessions[s]) && (Assembled(st, s, underfilled) || Succeeded(st, s))
  }

  predicate Oldest(ls: Leases, s: nat, oldest: nat) {
    oldest in ls && Awaits(ls[oldest], s) && forall i :: i in ls && Awaits(ls[i], s) ==> oldest <= i
  }

  /** The lease goes with the oldest waiting one. */
  predicate GoesAlong(safe: set<string>, ls: Leases, s: nat, oldest: nat, id: nat)
    requires oldest in ls && id in ls
  {
    Awaits(ls[id], s) && (id == oldest || (ls[oldest].req.family in safe && ls[id].req.family == ls[oldest].req.family))
  }

  /** The oldest waiting lease gets the permit of the next wave, with its waiting family if
      that may overlap; the batch is sealed. */
  ghost predicate WaveStarted(safe: set<string>, st: Pool, su: Pool, s: nat)
    requires s in st.sessions
  {
    var x := st.sessions[s];
    && su == st.(leases := su.leases, sessions := st.sessions[s := x.(isSealed := true, wave := x.wave + 1)])
    && su.leases.Keys == st.leases.Keys
    && exists oldest :: Oldest(st.leases, s, oldest) && forall id :: id in st.leases ==>
         su.leases[id] == if GoesAlong(safe, st.leases, s, oldest, id)
                          then st.leases[id].(permit := Some(x.wave + 1)) else st.leases[id]
  }

  /** The Desktop drains behind its barrier, and every waiting lease is releasing. */
  ghost predicate BatchStopped(st: Pool, su: Pool, s: nat, now: int)
    requires s in st.sessions
  {
    var x := st.sessions[s];
    && su == st.(leases := su.leases, sessions := st.sessions[s := x.(
         state := Draining, fault := OtherFault, blockedAt := Armed(x.blockedAt, now), drainAt := Armed(x.drainAt, now))])
    && su.leases.Keys == st.leases.Keys
    && forall id :: id in st.leases ==>
         su.leases[id] == if Awaits(st.leases[id], s)
                          then st.leases[id].(state := Releasing, releaseAt := Armed(st.leases[id].releaseAt, now))
                          else st.leases[id]
  }

  /** What a request for the next wave does to the refreshed database. */
  ghost predicate Decided(safe: set<string>, st: Pool, su: Pool, s: nat, underfilled: bool, now: int) {
    if Due(st, s, underfilled) then WaveStarted(safe, st, su, s)
    else if s in st.sessions && Works(st.sessions[s]) && Broke(st, s) then BatchStopped(st, su, s, now)
    else su == st
  }

  // ----- the decision -----

  lemma WaitingAwaits(ls: Leases, s: nat)
    ensures forall id :: id in Waiting(ls, s) <==> id in ls && Awaits(ls[id], s)
  {
  }

  lemma StartStarts(safe: set<string>, st: Pool, s: nat)
    requires s in st.sessions && Waiting(st.leases, s) != {}
    ensures WaveStarted(safe, st, StartWave(safe, st, s), s)
  {
    WaitingAwaits(st.leases, s);
    var waiting := Waiting(st.leases, s);
    var oldest := Least(waiting);
    StartWaveEffect(safe, st, s);
    hide Waiting, Awaits, StartWave;
    assert Oldest(st.leases, s, oldest);
    forall id | id in st.leases
      ensures id in NextWave(safe, st.leases, waiting) <==> GoesAlong(safe, st.leases, s, oldest, id)
    {
    }
    StartFrame(safe, st, s);
  }

  lemma StartFrame(safe: set<string>, st: Pool, s: nat)
    requires s in st.sessions
    ensures var su := StartWave(safe, st, s); su == st.(leases := su.leases, sessions := su.sessions)
  {
  }

  lemma StopStops(st: Pool, s: nat, now: int)
    requires s in st.sessions
    ensures BatchStopped(st, StopBatch(st, s, now), s, now)
  {
    WaitingAwaits(st.leases, s);
    hide Waiting;
  }

  lemma OwnersAwait(st: Pool, s: nat, underfilled: bool)
    requires LeaseRows(st.sessions, st.leases) && s in st.sessions && Assembled(st, s, underfilled)
    ensures Waiting(st.leases, s) != {}
  {
    var id :| id in Owners(st.leases, s);
    assert LeaseRow(st.sessions, st.leases[id]);
    assert id in Waiting(st.leases, s);
  }

  lemma SealIffAssembled(st: Pool, s: nat, underfilled: bool)
    requires s in st.sessions && !st.sessions[s].isSealed
    ensures MaySeal(st, s, underfilled) <==> Assembled(st, s, underfilled)
  {
    SameOwners(st.leases, s);
    if st.sessions[s].slots == 0 && Owners(st.leases, s) != {} {
      var id :| id in Owners(st.leases, s);
      assert |Owners(st.leases, s)| >= 1;
    }
    hide Owners, Holders;
  }

  lemma GrantDecides(safe: set<string>, st: Pool, s: nat, now: int, underfilled: bool)
    requires LeaseRows(st.sessions, st.leases)
    ensures Decided(safe, st, GrantReady(safe, st, s, now, underfilled), s, underfilled, now)
  {
    hide LeaseRows, WaveStarted, BatchStopped, StartWave, StopBatch, Assembled, MaySeal;
    if s in st.sessions && Works(st.sessions[s]) {
      WaitingAwaits(st.leases, s);
      StopStops(st, s, now);
      if !st.sessions[s].isSealed {
        SealIffAssembled(st, s, underfilled);
        if Assembled(st, s, underfilled) {
          OwnersAwait(st, s, underfilled);
          StartStarts(safe, st, s);
        }
      } else {
        NotAssembled(st, s, underfilled);
        hide Waiting;
        WaveTerms(st.leases, s, st.sessions[s].wave);
        hide WaveOver, WaveSucceeded;
        if Waiting(st.leases, s) != {} {
          StartStarts(safe, st, s);
        }
      }
    }
  }

  lemma NotAssembled(st: Pool, s: nat, underfilled: bool)
    requires s in st.sessions && st.sessions[s].isSealed
    ensures !Assembled(st, s, underfilled)
  {
  }

  lemma WaveTerms(ls: Leases, s: nat, g: nat)
    ensures WaveOver(ls, s, g) <==>
      (exists id :: id in ls && Granted(ls[id], s, g))
      && (forall id :: id in ls && Granted(ls[id], s, g) ==> LeaseEnded(ls[id]))
    ensures WaveSucceeded(ls, s, g) <==> forall id :: id in ls && Granted(ls[id], s, g) ==> Completed(ls[id], s, g)
  {
    assert Wave(ls, s, g) != {} <==> exists id :: id in ls && Granted(ls[id], s, g) by {
      if id :| id in ls && Granted(ls[id], s, g) {
        assert id in Wave(ls, s, g);
      }
    }
  }

  lemma WaveRises(safe: set<string>, st: Pool, su: Pool, s: nat, underfilled: bool, now: int)
    requires Decided(safe, st, su, s, underfilled, now) && s in st.sessions
    ensures s in su.sessions && (su.sessions[s].wave == st.sessions[s].wave + 1 <==> Due(st, s, underfilled))
  {
    hide Due, Broke;
  }

  lemma RefreshedRows(safe: set<string>, target: int, st: Pool, mid: Pool, now: int)
    requires Ebbs(safe, target, st, mid)
    ensures var ready := RefreshReservations(mid, now); LeaseRows(ready.sessions, ready.leases)
  {
    hide Inv, Ebbs;
    EbbsInv(safe, target, st, mid);
    RefreshReservationsEbbs(safe, target, mid, now);
    EbbsInv(safe, target, mid, RefreshReservations(mid, now));
    InvLeaseRows(safe, RefreshReservations(mid, now));
  }

  lemma BatchDecides(safe: set<string>, target: int, st: Pool, mid: Pool, s: nat, now: int, underfilled: bool)
    requires Ebbs(safe, target, st, mid)
    ensures Decided(safe, RefreshReservations(mid, now), GrantBatch(safe, mid, s, now, underfilled), s, underfilled, now)
  {
    hide Inv, Ebbs, Decided, GrantReady, RefreshReservations, LeaseRows;
    RefreshedRows(safe, target, st, mid, now);
    GrantDecides(safe, RefreshReservations(mid, now), s, now, underfilled);
  }

  // ----- the two transactions that ask -----

  /** The row of the lease after its client was heard. */
  function Heard(st: Pool, cfg: Config, id: nat, now: int): Pool
    requires id in st.leases
  {
    st.(leases := st.leases[id := st.leases[id].(state := Active, heartbeat := now, expires := now + cfg.leaseTtl)])
  }

  /** The decision is made on the refreshed tables. */
  ghost predicate DecidedFor(safe: set<string>, st: Pool, su: Pool, s: nat, underfilled: bool, now: int) {
    exists mid: Pool :: RefreshRuns(st, mid, now) && Decided(safe, mid, su, s, underfilled, now)
      && (s in mid.sessions ==>
            s in su.sessions && (su.sessions[s].wave == mid.sessions[s].wave + 1 <==> Due(mid, s, underfilled)))
  }

  lemma BatchDecidesFor(safe: set<string>, target: int, st: Pool, mid: Pool, s: nat, now: int, underfilled: bool)
    requires Ebbs(safe, target, st, mid)
    ensures DecidedFor(safe, mid, GrantBatch(safe, mid, s, now, underfilled), s, underfilled, now)
  {
    hide Ebbs, Decided, Due, GrantBatch, RefreshReservations, RefreshRuns;
    BatchDecides(safe, target, st, mid, s, now, underfilled);
    RefreshOutcome(mid, now);
    var ready := RefreshReservations(mid, now);
    if s in ready.sessions {
      WaveRises(safe, ready, GrantBatch(safe, mid, s, now, underfilled), s, underfilled, now);
    }
  }

  /** A permit request of an active lease starts the next wave of its Desktop exactly when
      it is due, and stops the batch exactly when its current wave broke. */
  ghost predicate PermitAnswered(safe: set<string>, st: Pool, su: Pool, cfg: Config, id: nat, token: string,
                                 underfilled: bool, now: int)
  {
    if id in st.leases && st.leases[id].token == token && st.leases[id].state.Active? then
      st.leases[id].session.Some?
      && DecidedFor(safe, Heard(st, cfg, id, now), su, st.leases[id].session.value, underfilled, now)
    else su == st
  }

  lemma PermitDecides(safe: set<string>, st: Pool, cfg: Config, id: nat, token: string, underfilled: bool, now: int)
    requires Inv(safe, st)
    ensures PermitAnswered(safe, st, RequestSolvePermit(safe, st, cfg, id, token, underfilled, now), cfg, id, token, underfilled, now)
  {
    hide Inv, Ebbs, GrantBatch, DecidedFor;
    if id in st.leases && st.leases[id].token == token && st.leases[id].state.Active? {
      HeldByNonTerminal(safe, st, id);
      TouchEbbs(safe, cfg.target, st, id, Heard(st, cfg, id, now).leases[id]);
      BatchDecidesFor(safe, cfg.target, st, Heard(st, cfg, id, now), st.leases[id].session.value, now, underfilled);
    }
  }

  /** The activation that completes a batch starts its first wave: the same decision, on the
      Desktop that the client read before. */
  ghost predicate LeaseActivated(safe: set<string>, st: Pool, su: Pool, cfg: Config, id: nat, token: string,
                                 seenState: LeaseState, seenSession: nat, now: int)
  {
    if id in st.leases && st.leases[id].token == token && st.leases[id].state == seenState
       && (if st.leases[id].req.protocol < 2 then seenState.Leased? else seenState.Attaching?) then
      if seenSession == 0 then su == Heard(st, cfg, id, now)
      else DecidedFor(safe, Heard(st, cfg, id, now), su, seenSession, false, now)
    else su == st
  }

  lemma ActivationDecides(safe: set<string>, st: Pool, cfg: Config, id: nat, token: string, seenState: LeaseState,
                          seenSession: nat, now: int)
    requires Inv(safe, st)
    ensures LeaseActivated(safe, st, ActivateLease(safe, st, cfg, id, token, seenState, seenSession, now),
                           cfg, id, token, seenState, seenSession, now)
  {
    hide Inv, Ebbs, GrantBatch, DecidedFor;
    if id in st.leases && st.leases[id].token == token && st.leases[id].state == seenState
       && (if st.leases[id].req.protocol < 2 then seenState.Leased? else seenState.Attaching?) {
      OneLeaseEbbs(safe, cfg.target, st, id, Heard(st, cfg, id, now).leases[id]);
      BatchDecidesFor(safe, cfg.target, st, Heard(st, cfg, id, now), seenSession, now, false);
    }
  }
}
