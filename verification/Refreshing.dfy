/** What the refresh of exact-session reservations does, phase by phase and row by row: when a
    cohort ends, and what becomes of its leases, its reservations and their Desktops. */
module PoolRefreshing {
  import opened PoolRows
  import opened PoolTerms
  import opened PoolRefresh
  import opened PoolCohortLoops
  import opened PoolReaping

  /** Not sealed, as far as the tables know. */
  predicate NotSealed(ss: Sessions, s: nat) { s in ss ==> !ss[s].isSealed }

  predicate Permitted(ls: Leases, lease: Option<nat>) {
    lease.Some? && lease.value in ls && ls[lease.value].permit.Some?
  }

  /** A standing reservation of the cohort. */
  predicate StandsIn(st: Pool, r: nat, key: CohortKey) {
    r in st.reservations && st.reservations[r].key == key && Stands(st.reservations[r])
  }

  /** The lease is pinned to a reservation of the cohort. */
  predicate PinnedTo(st: Pool, l: Lease, key: CohortKey) {
    l.req.pin in st.reservations && st.reservations[l.req.pin].key == key
  }

  predicate ProjectThere(l: Lease) {
    l.state.Attaching? || l.state.Active? || l.state.Releasing?
  }

  // ----- cohorts that lost a member -----

  /** On an unsealed Desktop the task of one member has ended while another stands. */
  predicate LostMember(st: Pool, key: CohortKey) {
    exists r, q :: r in st.reservations && q in st.reservations && StandsIn(st, r, key) && StandsIn(st, q, key) && r != q
      && TaskEnded(st.tasks, st.reservations[r].task) && NotSealed(st.sessions, st.reservations[r].session)
  }

  predicate CohortIs(st: Pool, l: Lease, keys: set<CohortKey>) {
    l.req.pin in st.reservations && st.reservations[l.req.pin].key in keys
  }

  function LosingKeys(st: Pool): set<CohortKey> {
    set r | r in st.reservations && LostMember(st, st.reservations[r].key) :: st.reservations[r].key
  }

  lemma LosingIs(st: Pool)
    ensures TerminalSiblingKeys(st) == LosingKeys(st)
  {
    forall r | r in st.reservations
      ensures HasTerminalSibling(st, r) ==> LostMember(st, st.reservations[r].key)
    {
      if HasTerminalSibling(st, r) {
        var key := st.reservations[r].key;
        var q :| q in st.reservations && q != r && st.reservations[q].key == key && st.reservations[q].state.Live();
        assert StandsIn(st, r, key) && StandsIn(st, q, key);
      }
    }
    forall key | key in LosingKeys(st)
      ensures key in TerminalSiblingKeys(st)
    {
      var r, q :| r in st.reservations && q in st.reservations && StandsIn(st, r, key) && StandsIn(st, q, key) && r != q
        && TaskEnded(st.tasks, st.reservations[r].task) && NotSealed(st.sessions, st.reservations[r].session);
      assert HasTerminalSibling(st, r);
    }
  }

  /** Open projects release, everything else of the cohort fails. */
  function LeaseSettles(l: Lease, ends: bool, now: int): Lease {
    if !ends || LeaseEnded(l) then l
    else if ProjectThere(l) then l.(state := Releasing, releaseAt := Armed(l.releaseAt, now))
    else l.(state := Failed)
  }

  predicate ProjectEndsOn(st: Pool, keys: set<CohortKey>, s: nat) {
    exists id :: id in st.leases && st.leases[id].session == Some(s) && CohortIs(st, st.leases[id], keys)
      && ProjectThere(st.leases[id])
  }

  function ReservationEnds(r: Reservation, ends: bool, end: ReservationState): Reservation {
    if ends && Stands(r) then r.(state := end) else r
  }

  ghost predicate SiblingsSettled(st: Pool, su: Pool, now: int) {
    var keys := LosingKeys(st);
    && su == st.(leases := su.leases, sessions := su.sessions, reservations := su.reservations)
    && su.leases.Keys == st.leases.Keys && su.sessions.Keys == st.sessions.Keys
    && su.reservations.Keys == st.reservations.Keys
    && (forall id :: id in st.leases ==> su.leases[id] == LeaseSettles(st.leases[id], CohortIs(st, st.leases[id], keys), now))
    && (forall r :: r in st.reservations ==>
          su.reservations[r] == ReservationEnds(st.reservations[r], st.reservations[r].key in keys, ResFailed))
    && (forall s :: s in st.sessions ==>
          su.sessions[s] == BarrierUp(st.sessions[s], ProjectEndsOn(st, keys, s), now))
  }

  lemma SettlesIs(l: Lease, ends: bool, now: int)
    ensures FailedLease(l, ends, true, now) == LeaseSettles(l, ends, now)
  {
  }

  lemma SiblingsAreSettled(st: Pool, now: int)
    ensures SiblingsSettled(st, FailCohorts(st, TerminalSiblingKeys(st), true, now), now)
  {
    LosingIs(st);
    var keys := LosingKeys(st);
    hide FailCohorts, TerminalSiblingKeys, LosingKeys, LeaseSettles, FailedLease;
    FailRows(st, keys, true, now);
    forall id | id in st.leases
      ensures FailedLease(st.leases[id], InCohort(st.reservations, st.leases[id], keys), true, now)
           == LeaseSettles(st.leases[id], CohortIs(st, st.leases[id], keys), now)
    {
      SettlesIs(st.leases[id], CohortIs(st, st.leases[id], keys), now);
    }
    forall s | s in st.sessions
      ensures FailCohorts(st, keys, true, now).sessions[s]
           == BarrierUp(st.sessions[s], ProjectEndsOn(st, keys, s), now)
    {
      FailSession(st, keys, true, now, s);
      SettlesOn(st, keys, s);
      hide PoolCohortLoops.Closes, ProjectEndsOn;
    }
    hide BarrierUp, ProjectEndsOn, CohortIs;
  }

  lemma SettlesOn(st: Pool, keys: set<CohortKey>, s: nat)
    ensures PoolCohortLoops.Closes(st, keys, false, s) <==> ProjectEndsOn(st, keys, s)
  {
    if ProjectEndsOn(st, keys, s) {
      var id :| id in st.leases && st.leases[id].session == Some(s) && CohortIs(st, st.leases[id], keys)
        && ProjectThere(st.leases[id]);
      assert InCohort(st.reservations, st.leases[id], keys);
    }
    if PoolCohortLoops.Closes(st, keys, false, s) {
      var id :| id in st.leases && InCohort(st.reservations, st.leases[id], keys)
        && st.leases[id].session == Some(s) && OwnsProject(st.leases[id]);
      assert CohortIs(st, st.leases[id], keys);
    }
  }

  // ----- cohorts whose time ran out -----

  /** On an unsealed Desktop a standing member expired before it got a permit. */
  predicate RanOut(st: Pool, key: CohortKey, now: int) {
    exists r :: r in st.reservations && StandsIn(st, r, key) && st.reservations[r].expires <= now
      && NotSealed(st.sessions, st.reservations[r].session) && !Permitted(st.leases, st.reservations[r].lease)
  }

  function RanOutKeys(st: Pool, now: int): set<CohortKey> {
    set r | r in st.reservations && RanOut(st, st.reservations[r].key, now) :: st.reservations[r].key
  }

  lemma RanOutIs(st: Pool, now: int)
    ensures ExpiredKeys(st, now) == RanOutKeys(st, now)
  {
    forall r | r in st.reservations && CohortExpired(st, r, now)
      ensures RanOut(st, st.reservations[r].key, now)
    {
      assert StandsIn(st, r, st.reservations[r].key);
    }
    forall key | key in RanOutKeys(st, now)
      ensures key in ExpiredKeys(st, now)
    {
      var r :| r in st.reservations && StandsIn(st, r, key) && st.reservations[r].expires <= now
        && NotSealed(st.sessions, st.reservations[r].session) && !Permitted(st.leases, st.reservations[r].lease);
      assert CohortExpired(st, r, now);
    }
  }

  /** Without a permit, an open project releases and a lease without one expires. */
  function LeaseRunsOut(l: Lease, ends: bool, now: int): Lease {
    if !ends || LeaseEnded(l) || l.permit.Some? then l
    else if ProjectThere(l) then l.(state := Releasing, releaseAt := Armed(l.releaseAt, now))
    else l.(state := Expired)
  }

  predicate ProjectRunsOutOn(st: Pool, keys: set<CohortKey>, s: nat) {
    exists id :: id in st.leases && st.leases[id].session == Some(s) && CohortIs(st, st.leases[id], keys)
      && ProjectThere(st.leases[id]) && (st.leases[id].permit.Some? ==> st.leases[id].state.Releasing?)
  }

  ghost predicate CohortsRanOut(st: Pool, su: Pool, now: int) {
    var keys := RanOutKeys(st, now);
    && su == st.(leases := su.leases, sessions := su.sessions, reservations := su.reservations)
    && su.leases.Keys == st.leases.Keys && su.sessions.Keys == st.sessions.Keys
    && su.reservations.Keys == st.reservations.Keys
    && (forall id :: id in st.leases ==> su.leases[id] == LeaseRunsOut(st.leases[id], CohortIs(st, st.leases[id], keys), now))
    && (forall r :: r in st.reservations ==>
          su.reservations[r] == ReservationEnds(st.reservations[r], st.reservations[r].key in keys
                                                && !Permitted(st.leases, st.reservations[r].lease), ResExpired))
    && (forall s :: s in st.sessions ==>
          su.sessions[s] == BarrierUp(st.sessions[s], ProjectRunsOutOn(st, keys, s), now))
  }

  lemma RunsOutIs(l: Lease, ends: bool, now: int)
    ensures ExpiredLease(l, ends, now) == LeaseRunsOut(l, ends, now)
  {
  }

  lemma RunsOutOn(st: Pool, keys: set<CohortKey>, s: nat)
    ensures PoolCohortLoops.Closes(st, keys, true, s) <==> ProjectRunsOutOn(st, keys, s)
  {
    if ProjectRunsOutOn(st, keys, s) {
      var id :| id in st.leases && st.leases[id].session == Some(s) && CohortIs(st, st.leases[id], keys)
        && ProjectThere(st.leases[id]) && (st.leases[id].permit.Some? ==> st.leases[id].state.Releasing?);
      assert InCohort(st.reservations, st.leases[id], keys);
    }
    if PoolCohortLoops.Closes(st, keys, true, s) {
      var id :| id in st.leases && InCohort(st.reservations, st.leases[id], keys) && st.leases[id].session == Some(s)
        && (st.leases[id].state.Releasing? || (st.leases[id].permit.None? && OwnsProject(st.leases[id])));
      assert CohortIs(st, st.leases[id], keys);
    }
  }

  lemma CohortsHaveRunOut(st: Pool, now: int)
    ensures CohortsRanOut(st, ExpireCohorts(st, ExpiredKeys(st, now), now), now)
  {
    RanOutIs(st, now);
    var keys := RanOutKeys(st, now);
    hide ExpireCohorts, ExpiredKeys, RanOutKeys, LeaseRunsOut, ExpiredLease;
    ExpireRows(st, keys, now);
    forall id | id in st.leases
      ensures ExpiredLease(st.leases[id], InCohort(st.reservations, st.leases[id], keys), now)
           == LeaseRunsOut(st.leases[id], CohortIs(st, st.leases[id], keys), now)
    {
      RunsOutIs(st.leases[id], CohortIs(st, st.leases[id], keys), now);
    }
    forall s | s in st.sessions
      ensures ExpireCohorts(st, keys, now).sessions[s]
           == BarrierUp(st.sessions[s], ProjectRunsOutOn(st, keys, s), now)
    {
      ExpireSession(st, keys, now, s);
      RunsOutOn(st, keys, s);
      hide PoolCohortLoops.Closes, ProjectRunsOutOn;
    }
    hide BarrierUp, ProjectRunsOutOn, CohortIs;
  }

  // ----- reservations that are done -----

  /** The task is over, or the lease that claimed the reservation is. */
  predicate IsDone(st: Pool, r: Reservation) {
    || TaskEnded(st.tasks, r.task)
    || (!r.state.Reserved? && r.lease.Some? && r.lease.value in st.leases && LeaseEnded(st.leases[r.lease.value]))
  }

  ghost predicate DoneReturned(st: Pool, su: Pool) {
    && su == st.(reservations := su.reservations) && su.reservations.Keys == st.reservations.Keys
    && forall r :: r in st.reservations ==>
         su.reservations[r] == ReservationEnds(st.reservations[r], IsDone(st, st.reservations[r]), ResReleased)
  }

  lemma FinishRows(st: Pool, rids: set<nat>, end: ReservationState)
    ensures
      var su := FinishReservations(st, rids, end);
      && su == st.(reservations := su.reservations) && su.reservations.Keys == st.reservations.Keys
      && forall r :: r in st.reservations ==>
           su.reservations[r] == ReservationEnds(st.reservations[r], r in rids, end)
  {
  }

  lemma DoneAreReturned(st: Pool)
    ensures DoneReturned(st, ReleaseFinished(st))
  {
    hide FinishReservations, ReservationEnds;
    var tasksOver := set r | r in st.reservations && TaskOver(st.tasks, st.reservations[r].task);
    var byTask := FinishReservations(st, tasksOver, ResReleased);
    FinishRows(st, tasksOver, ResReleased);
    var leasesOver := set r | r in byTask.reservations && !byTask.reservations[r].state.Reserved?
                            && LeaseOver(byTask.leases, byTask.reservations[r].lease);
    FinishRows(byTask, leasesOver, ResReleased);
    forall r | r in st.reservations
      ensures ReservationEnds(byTask.reservations[r], r in leasesOver, ResReleased)
           == ReservationEnds(st.reservations[r], IsDone(st, st.reservations[r]), ResReleased)
    {
      DoneTwice(st, st.reservations[r]);
    }
    hide IsDone, TaskOver, LeaseOver;
  }

  lemma DoneTwice(st: Pool, r: Reservation)
    ensures
      var q := ReservationEnds(r, TaskOver(st.tasks, r.task), ResReleased);
      ReservationEnds(q, !q.state.Reserved? && LeaseOver(st.leases, q.lease), ResReleased)
      == ReservationEnds(r, IsDone(st, r), ResReleased)
  {
  }

  // ----- cohorts whose Desktop is lost -----

  /** The standing member is not on the reserved Desktop. */
  predicate Away(st: Pool, q: Reservation, s: nat) {
    !(&& q.state.Consumed? && q.lease.Some? && q.lease.value in st.leases
      && OwnsSlot(st.leases[q.lease.value], s))
  }

  /** A standing member that is not served by the sealed batch. */
  predicate Unserved(st: Pool, q: Reservation) {
    !(&& q.state.Consumed? && q.lease.Some? && q.lease.value in st.leases
      && (st.leases[q.lease.value].permit.Some? || st.leases[q.lease.value].state.Active?))
  }

  /** A standing member has no permit yet. */
  predicate Unpermitted(st: Pool, q: Reservation) {
    KeepsSlot(q) || !Permitted(st.leases, q.lease)
  }

  predicate SomeAway(st: Pool, key: CohortKey, s: nat) {
    exists q :: q in st.reservations && StandsIn(st, q, key) && Away(st, st.reservations[q], s)
  }

  predicate SomeUnserved(st: Pool, key: CohortKey) {
    exists q :: q in st.reservations && StandsIn(st, q, key) && Unserved(st, st.reservations[q])
  }

  predicate SomeWaiting(st: Pool, key: CohortKey) {
    exists q :: q in st.reservations && StandsIn(st, q, key) && Unpermitted(st, st.reservations[q])
  }

  /** The lease of the reservation solves on the reserved Desktop. */
  predicate SolvesThere(st: Pool, rid: nat, r: Reservation) {
    && r.state.Consumed? && r.lease.Some? && r.lease.value in st.leases
    && st.leases[r.lease.value].req.pin == rid && st.leases[r.lease.value].state.Active?
    && st.leases[r.lease.value].session == Some(r.session)
  }

  /** The Desktop no longer is what was reserved: unknown, changed, not working, draining while
      a member is away, on an allocation out of service, or sealed without a member. */
  predicate TargetLost(st: Pool, rid: nat)
    requires rid in st.reservations
  {
    var r := st.reservations[rid];
    if r.session !in st.sessions then true
    else
      var x := st.sessions[r.session];
      || x.generation != r.generation || x.profile != r.profile || !Works(x)
      || (x.drainAt.Some? && (x.state.Ready? || SomeAway(st, r.key, r.session)))
      || (x.allocation in st.allocations && !InService(st.allocations, x.allocation)
          && !(x.isSealed && x.process != "" && x.host != "" && x.token != "" && SolvesThere(st, rid, r)))
      || (x.isSealed && SomeUnserved(st, r.key))
  }

  /** A standing member lost its Desktop, and some standing member still has no permit. */
  predicate LosesTarget(st: Pool, key: CohortKey) {
    && (exists r :: r in st.reservations && StandsIn(st, r, key) && TargetLost(st, r))
    && SomeWaiting(st, key)
  }

  function LostKeys(st: Pool): set<CohortKey> {
    set r | r in st.reservations && LosesTarget(st, st.reservations[r].key) :: st.reservations[r].key
  }

  lemma SomeAwayIs(st: Pool, key: CohortKey, s: nat)
    ensures SomeAway(st, key, s)
      <==> exists q :: q in st.reservations && st.reservations[q].key == key
             && st.reservations[q].state.Live() && Detached(st, st.reservations[q], s)
  {
    forall q | q in st.reservations
      ensures StandsIn(st, q, key) <==> st.reservations[q].key == key && st.reservations[q].state.Live()
      ensures Away(st, st.reservations[q], s) <==> Detached(st, st.reservations[q], s)
    {
    }
    hide StandsIn, Away, Detached;
  }

  lemma SomeUnservedIs(st: Pool, key: CohortKey)
    ensures SomeUnserved(st, key)
      <==> exists q :: q in st.reservations && st.reservations[q].key == key
             && st.reservations[q].state.Live() && LeftOutOfBatch(st, st.reservations[q])
  {
    forall q | q in st.reservations
      ensures StandsIn(st, q, key) <==> st.reservations[q].key == key && st.reservations[q].state.Live()
      ensures st.reservations[q].state.Live() ==>
        (Unserved(st, st.reservations[q]) <==> LeftOutOfBatch(st, st.reservations[q]))
    {
    }
    hide StandsIn, Unserved, LeftOutOfBatch;
  }

  lemma SomeWaitingIs(st: Pool, key: CohortKey)
    ensures SomeWaiting(st, key)
      <==> exists q :: q in st.reservations && st.reservations[q].key == key
             && st.reservations[q].state.Live() && StillPending(st, st.reservations[q])
  {
    forall q | q in st.reservations
      ensures StandsIn(st, q, key) <==> st.reservations[q].key == key && st.reservations[q].state.Live()
      ensures Unpermitted(st, st.reservations[q]) <==> StillPending(st, st.reservations[q])
    {
    }
    hide StandsIn, Unpermitted, StillPending;
  }

  lemma TargetLostIs(st: Pool, rid: nat)
    requires rid in st.reservations
    ensures TargetInvalid(st, rid) <==> TargetLost(st, rid)
  {
    var r := st.reservations[rid];
    SomeAwayIs(st, r.key, r.session);
    SomeUnservedIs(st, r.key);
    assert ActiveOwner(st, rid, r) <==> SolvesThere(st, rid, r);
    hide SomeAway, SomeUnserved, ActiveOwner, SolvesThere, Detached, LeftOutOfBatch;
  }

  lemma LostKeysAre(st: Pool)
    ensures InvalidKeys(st) == LostKeys(st)
  {
    forall r | r in st.reservations
      ensures Invalidated(st, r)
         <==> StandsIn(st, r, st.reservations[r].key) && TargetLost(st, r) && SomeWaiting(st, st.reservations[r].key)
    {
      TargetLostIs(st, r);
      SomeWaitingIs(st, st.reservations[r].key);
      hide TargetInvalid, TargetLost, SomeWaiting, StillPending;
    }
    hide Invalidated, TargetLost, SomeWaiting, StandsIn;
    forall key | key in LostKeys(st)
      ensures key in InvalidKeys(st)
    {
      var r :| r in st.reservations && StandsIn(st, r, key) && TargetLost(st, r);
      assert st.reservations[r].key == key by { StandsHere(st, r, key); }
      assert Invalidated(st, r);
    }
  }

  lemma StandsHere(st: Pool, r: nat, key: CohortKey)
    requires StandsIn(st, r, key)
    ensures r in st.reservations && st.reservations[r].key == key
  {
  }

  predicate NamedBy(st: Pool, keys: set<CohortKey>, s: nat) {
    exists r :: r in st.reservations && st.reservations[r].key in keys && st.reservations[r].session == s
  }

  ghost predicate TargetsFailed(st: Pool, su: Pool) {
    var keys := LostKeys(st);
    && su == st.(leases := su.leases, sessions := su.sessions, reservations := su.reservations)
    && su.leases.Keys == st.leases.Keys && su.sessions.Keys == st.sessions.Keys
    && su.reservations.Keys == st.reservations.Keys
    && (forall id :: id in st.leases ==>
          su.leases[id] == if CohortIs(st, st.leases[id], keys) && !LeaseEnded(st.leases[id])
                           then st.leases[id].(state := Failed) else st.leases[id])
    && (forall r :: r in st.reservations ==>
          su.reservations[r] == ReservationEnds(st.reservations[r], st.reservations[r].key in keys, ResFailed))
    && (forall s :: s in st.sessions ==>
          su.sessions[s] == Left(st.sessions[s], NamedBy(st, keys, s), Vacant(su.leases, s)))
  }

  /** Failing the cohorts, and then the Desktops they name. */
  lemma TargetSteps(st: Pool, now: int)
    ensures
      var failed := FailCohorts(st, LostKeys(st), false, now);
      var affected := set r | r in st.reservations && st.reservations[r].key in LostKeys(st) :: st.reservations[r].session;
      && FailInvalidTargets(st, now) == RefreshSessions(failed, affected)
      && failed.sessions == st.sessions
      && forall s :: s in affected <==> NamedBy(st, LostKeys(st), s)
  {
    LostKeysAre(st);
    hide InvalidKeys, LostKeys, RefreshSessions;
    var affected := set r | r in st.reservations && st.reservations[r].key in LostKeys(st) :: st.reservations[r].session;
    assert FailInvalidTargets(st, now) == RefreshSessions(FailCohorts(st, LostKeys(st), false, now), affected);
    forall s
      ensures s in affected <==> NamedBy(st, LostKeys(st), s)
    {
    }
  }

  lemma TargetSession(st: Pool, now: int, s: nat)
    requires s in st.sessions
    ensures
      var su := FailInvalidTargets(st, now);
      s in su.sessions && su.sessions[s] == Left(st.sessions[s], NamedBy(st, LostKeys(st), s), Vacant(su.leases, s))
  {
    hide LostKeys, FailCohorts, FailInvalidTargets, Rested, Refreshed, NamedBy, Vacant, NoHolder;
    TargetSteps(st, now);
    SameOwners(FailInvalidTargets(st, now).leases, s);
    RestedIs(st.sessions[s], Vacant(FailInvalidTargets(st, now).leases, s));
  }

  lemma TargetRows(st: Pool, now: int)
    ensures
      var su := FailInvalidTargets(st, now);
      var keys := LostKeys(st);
      && su == st.(leases := su.leases, sessions := su.sessions, reservations := su.reservations)
      && su.leases.Keys == st.leases.Keys && su.sessions.Keys == st.sessions.Keys
      && su.reservations.Keys == st.reservations.Keys
      && (forall id :: id in st.leases ==>
            su.leases[id] == if CohortIs(st, st.leases[id], keys) && !LeaseEnded(st.leases[id])
                             then st.leases[id].(state := Failed) else st.leases[id])
      && (forall r :: r in st.reservations ==>
            su.reservations[r] == ReservationEnds(st.reservations[r], st.reservations[r].key in keys, ResFailed))
  {
    hide LostKeys, FailCohorts, FailInvalidTargets, Refreshed, NamedBy, InCohort, CohortIs, NoHolder;
    TargetSteps(st, now);
    FailRows(st, LostKeys(st), false, now);
    forall id | id in st.leases
      ensures InCohort(st.reservations, st.leases[id], LostKeys(st)) <==> CohortIs(st, st.leases[id], LostKeys(st))
    {
      CohortIsSame(st, st.leases[id], LostKeys(st));
    }
  }

  lemma CohortIsSame(st: Pool, l: Lease, keys: set<CohortKey>)
    ensures InCohort(st.reservations, l, keys) <==> CohortIs(st, l, keys)
  {
  }

  lemma TargetsAreFailed(st: Pool, now: int)
    ensures TargetsFailed(st, FailInvalidTargets(st, now))
  {
    hide FailInvalidTargets, LostKeys, NamedBy, Vacant, Left, CohortIs, ReservationEnds, LeaseEnded;
    TargetRows(st, now);
    forall s | s in st.sessions
      ensures
        var su := FailInvalidTargets(st, now);
        s in su.sessions && su.sessions[s] == Left(st.sessions[s], NamedBy(st, LostKeys(st), s), Vacant(su.leases, s))
    {
      TargetSession(st, now, s);
    }
  }

  // ----- the whole refresh -----

  /** The four phases, each on what the one before left. */
  ghost predicate RefreshRuns(st: Pool, su: Pool, now: int) {
    exists settled: Pool, expired: Pool, returned: Pool ::
      SiblingsSettled(st, settled, now) && CohortsRanOut(settled, expired, now) && DoneReturned(expired, returned)
      && TargetsFailed(returned, su)
  }

  /** A refresh settles cohorts that lost a member, expires cohorts whose time ran out, returns
      reservations that are done, and fails cohorts whose Desktop is lost, and does nothing else. */
  lemma RefreshOutcome(st: Pool, now: int)
    ensures RefreshRuns(st, RefreshReservations(st, now), now)
  {
    hide SiblingsSettled, CohortsRanOut, DoneReturned, TargetsFailed;
    hide FailCohorts, ExpireCohorts, ReleaseFinished, FailInvalidTargets, TerminalSiblingKeys, ExpiredKeys;
    var settled := FailCohorts(st, TerminalSiblingKeys(st), true, now);
    SiblingsAreSettled(st, now);
    var expired := ExpireCohorts(settled, ExpiredKeys(settled, now), now);
    CohortsHaveRunOut(settled, now);
    DoneAreReturned(expired);
    TargetsAreFailed(ReleaseFinished(expired), now);
  }
}
