/** Which slots are reserved, for an operator's cohort and for one task: exactly, on rows. */
module PoolReservationOutcomes {
  import opened PoolRows
  import opened PoolTerms
  import opened PoolInvariant
  import opened PoolCalm
  import opened PoolRefresh
  import opened PoolCohortLoops
  import opened PoolPlacement
  import opened PoolSolve
  import opened PoolEntry
  import opened PoolEntryProofs
  import opened PoolCursor
  import opened PoolClient
  import opened PoolRefreshing
  import opened PoolFitting
  import opened PoolClientOutcomes
  import opened PoolAdmissionOutcomes
  import opened PoolPasses

  // ----- an operator's cohort -----

  /** The Desktop is what the operator named, working and open, on an allocation in service. */
  predicate TargetNamed(st: Pool, s: nat, generation: nat, profile: string) {
    s in st.sessions &&
    var x := st.sessions[s];
    && Works(x) && !x.isSealed && x.drainAt.None? && InService(st.allocations, x.allocation)
    && x.generation == generation && x.profile == profile
  }

  /** The task is known, pooled and not over, and nothing is reserved or leased for it. */
  predicate TaskFree(st: Pool, t: nat) {
    && t in st.tasks && st.tasks[t].pooled && !st.tasks[t].status.TaskTerminal?
    && (forall r :: r in st.reservations && st.reservations[r].task == t ==> !Stands(st.reservations[r]))
    && (forall id :: id in st.leases && st.leases[id].req.task == t ==> LeaseEnded(st.leases[id]))
  }

  predicate AllFree(st: Pool, tasks: set<nat>) {
    forall t :: t in tasks ==> TaskFree(st, t)
  }

  /** There is a slot for every task on the Desktop, and the target admits them all. */
  predicate RoomFor(st: Pool, cfg: Config, s: nat, count: nat) {
    && s in st.sessions
    && |Owners(st.leases, s)| + |KeptSlots(st.reservations, s, 0)| + count <= st.sessions[s].slots
    && 0 < cfg.target && |Admitted(st.leases, st.reservations)| + count <= cfg.target
  }

  predicate CohortFits(st: Pool, cfg: Config, s: nat, generation: nat, profile: string, tasks: set<nat>) {
    TargetNamed(st, s, generation, profile) && RoomFor(st, cfg, s, |tasks|) && AllFree(st, tasks)
  }

  /** The cohort of that name exists with the same Desktop and exactly these tasks. */
  predicate CohortExists(rs: Reservations, name: string) {
    exists q :: q in rs && rs[q].key == Operator(name)
  }

  predicate CohortSame(rs: Reservations, name: string, s: nat, generation: nat, profile: string, tasks: set<nat>) {
    && (forall q :: q in rs && rs[q].key == Operator(name) ==>
          rs[q].session == s && rs[q].generation == generation && rs[q].profile == profile && rs[q].task in tasks)
    && (forall t :: t in tasks ==> exists q :: q in rs && rs[q].key == Operator(name) && rs[q].task == t)
  }

  /** One reserved row for each task, in ascending order of tasks and ids, expiring together. */
  ghost predicate CohortReserved(st: Pool, su: Pool, name: string, s: nat, generation: nat, profile: string,
                                 tasks: set<nat>, expires: int)
  {
    var n := NextId(st.reservations.Keys);
    var order := InOrder(tasks);
    && su == st.(reservations := su.reservations)
    && (forall r :: r in su.reservations <==> r in st.reservations || n <= r < n + |order|)
    && (forall r :: r in st.reservations && r in su.reservations ==> su.reservations[r] == st.reservations[r])
    && (forall i :: n <= i < n + |order| && i in su.reservations ==>
          su.reservations[i] == Reservation(Operator(name), order[i - n], s, generation, profile, "", None, Reserved, None, expires))
  }

  /** An operator reserves a slot for every task or for none; the same cohort asked for again is
      found, and another one under its name is refused. */
  ghost predicate CohortJudged(before: Pool, st: Pool, su: Pool, cfg: Config, name: string, s: nat, generation: nat,
                               profile: string, tasks: set<nat>, expires: int)
  {
    if CohortExists(st.reservations, name)
    then su == if CohortSame(st.reservations, name, s, generation, profile, tasks) then st else before
    else if CohortFits(st, cfg, s, generation, profile, tasks)
    then CohortReserved(st, su, name, s, generation, profile, tasks, expires)
    else su == before
  }

  lemma CohortSameIs(rs: Reservations, r: Reservation, name: string, tasks: set<nat>)
    requires r.key == Operator(name)
    ensures SameCohort(rs, r, tasks) <==> CohortSame(rs, name, r.session, r.generation, r.profile, tasks)
  {
    var named := set q | q in rs && rs[q].key == r.key :: rs[q].task;
    if SameCohort(rs, r, tasks) {
      forall t | t in tasks
        ensures exists q :: q in rs && rs[q].key == Operator(name) && rs[q].task == t
      {
        assert t in named;
      }
      forall q | q in rs && rs[q].key == Operator(name)
        ensures rs[q].task in tasks
      {
        assert rs[q].task in named;
      }
    }
    if CohortSame(rs, name, r.session, r.generation, r.profile, tasks) {
      assert named == tasks;
    }
  }

  /** The same, as the three queries ask it. */
  predicate QueriedFree(st: Pool, order: seq<nat>) {
    && (forall t :: t in order ==> t in st.tasks && !st.tasks[t].status.TaskTerminal? && st.tasks[t].pooled)
    && (forall q :: q in st.reservations && st.reservations[q].state.Live() ==> st.reservations[q].task !in order)
    && (forall id :: id in st.leases && st.leases[id].state.Live() ==> st.leases[id].req.task !in order)
  }

  lemma TasksAreFree(st: Pool, tasks: set<nat>, order: seq<nat>)
    requires forall t :: t in order <==> t in tasks
    ensures AllFree(st, tasks) <==> QueriedFree(st, order)
  {
    if AllFree(st, tasks) {
      forall q | q in st.reservations && st.reservations[q].state.Live()
        ensures st.reservations[q].task !in order
      {
        assert st.reservations[q].task in tasks ==> TaskFree(st, st.reservations[q].task);
      }
      forall id | id in st.leases && st.leases[id].state.Live()
        ensures st.leases[id].req.task !in order
      {
        assert st.leases[id].req.task in tasks ==> TaskFree(st, st.leases[id].req.task);
      }
      forall t | t in order
        ensures t in st.tasks && !st.tasks[t].status.TaskTerminal? && st.tasks[t].pooled
      {
        assert TaskFree(st, t);
      }
    }
  }

  lemma AdmissibleSplit(st: Pool, cfg: Config, r: Reservation, order: seq<nat>)
    ensures
      CohortAdmissible(st, cfg, r, order)
      <==> && TargetNamed(st, r.session, r.generation, r.profile) && QueriedFree(st, order)
           && cfg.target > 0 && |Admitted(st.leases, st.reservations)| + |order| <= cfg.target
           && |order| <= FreeSlots(st, r.session)
  {
    hide FreeSlots, Admitted;
  }

  lemma CohortFitsIs(st: Pool, cfg: Config, r: Reservation, tasks: set<nat>)
    ensures CohortAdmissible(st, cfg, r, InOrder(tasks)) <==> CohortFits(st, cfg, r.session, r.generation, r.profile, tasks)
  {
    hide CohortAdmissible, QueriedFree, AllFree, Owners, KeptSlots, Holders, HeldByOthers, Admitted, InOrder;
    TasksAreFree(st, tasks, InOrder(tasks));
    AdmissibleSplit(st, cfg, r, InOrder(tasks));
    SameOwners(st.leases, r.session);
    SameKeptSlots(st.reservations, r.session, 0);
  }

  lemma NextReserved(st: Pool, r: Reservation)
    ensures NextId(AddReservation(st, r).reservations.Keys) == NextId(st.reservations.Keys) + 1
  {
    hide NextId;
    NextAfter(st.reservations.Keys);
    assert AddReservation(st, r).reservations.Keys == st.reservations.Keys + {NextId(st.reservations.Keys)};
  }

  /** The rows are added under ids from `n` on. */
  ghost predicate RowsAdded(rs: Reservations, qs: Reservations, r: Reservation, order: seq<nat>, n: nat) {
    && (forall q :: q in qs <==> q in rs || n <= q < n + |order|)
    && (forall q :: q in rs && q in qs ==> qs[q] == rs[q])
    && (forall i :: n <= i < n + |order| && i in qs ==> qs[i] == r.(task := order[i - n]))
  }

  lemma FirstAdded(rs: Reservations, qs: Reservations, r: Reservation, order: seq<nat>, n: nat)
    requires order != [] && n !in rs && (forall q :: q in rs ==> q < n)
    requires RowsAdded(rs[n := r.(task := order[0])], qs, r, order[1..], n + 1)
    ensures RowsAdded(rs, qs, r, order, n)
  {
    forall i | n <= i < n + |order| && i in qs
      ensures qs[i] == r.(task := order[i - n])
    {
      if i > n {
        assert qs[i] == r.(task := order[1..][i - (n + 1)]);
      }
    }
  }

  lemma {:induction false} ReservedRows(st: Pool, r: Reservation, order: seq<nat>)
    ensures
      var su := AddReservations(st, r, order);
      && su == st.(reservations := su.reservations)
      && RowsAdded(st.reservations, su.reservations, r, order, NextId(st.reservations.Keys))
    decreases |order|
  {
    hide NextId;
    if order == [] {
      assert AddReservations(st, r, order) == st;
    } else {
      var n := NextId(st.reservations.Keys);
      var mid := AddReservation(st, r.(task := order[0]));
      NextReserved(st, r.(task := order[0]));
      ReservedRows(mid, r, order[1..]);
      assert AddReservations(st, r, order) == AddReservations(mid, r, order[1..]);
      hide AddReservations, RowsAdded;
      FirstAdded(st.reservations, AddReservations(mid, r, order[1..]).reservations, r, order, n);
    }
  }

  predicate WellAsked(name: string, tasks: set<nat>, ttl: int) {
    name != "" && tasks != {} && 0 !in tasks && 60 <= ttl && ttl <= 3600
  }

  ghost predicate CohortCreated(st: Pool, su: Pool, cfg: Config, name: string, s: nat, generation: nat, profile: string,
                                tasks: set<nat>, ttl: int, now: int)
  {
    if WellAsked(name, tasks, ttl) then
      exists mid: Pool :: RefreshRuns(st, mid, now)
        && CohortJudged(st, mid, su, cfg, name, s, generation, profile, tasks, now + ttl)
    else su == st
  }

  lemma CohortOutcome(st: Pool, cfg: Config, name: string, s: nat, generation: nat, profile: string, tasks: set<nat>,
                      ttl: int, now: int)
    ensures CohortCreated(st, CreateReservation(st, cfg, name, s, generation, profile, tasks, ttl, now), cfg, name, s, generation, profile, tasks, ttl, now)
  {
    hide RefreshReservations, RefreshRuns, SameCohort, CohortSame, CohortAdmissible, CohortFits, AddReservations, RowsAdded, NextId, InOrder;
    if WellAsked(name, tasks, ttl) {
      var mid := RefreshReservations(st, now);
      RefreshOutcome(st, now);
      var r := Reservation(Operator(name), 0, s, generation, profile, "", None, Reserved, None, now + ttl);
      CohortSameIs(mid.reservations, r, name, tasks);
      CohortFitsIs(mid, cfg, r, tasks);
      ReservedRows(mid, r, InOrder(tasks));
      if CohortFits(mid, cfg, s, generation, profile, tasks) {
        RowsReserved(mid, AddReservations(mid, r, InOrder(tasks)), r, name, tasks);
      }
      hide CohortReserved;
    }
  }

  lemma RowsReserved(st: Pool, su: Pool, r: Reservation, name: string, tasks: set<nat>)
    requires r == Reservation(Operator(name), 0, r.session, r.generation, r.profile, "", None, Reserved, None, r.expires)
    requires su == st.(reservations := su.reservations)
    requires RowsAdded(st.reservations, su.reservations, r, InOrder(tasks), NextId(st.reservations.Keys))
    ensures CohortReserved(st, su, name, r.session, r.generation, r.profile, tasks, r.expires)
  {
    hide NextId, InOrder;
  }

  // ----- one task -----

  /** The task and its client: known to the pool, and asked for within bounds. */
  predicate WellIntended(i: Intent, cfg: Config) {
    i.task != 0 && i.family != "" && 60 <= i.ttl && i.ttl <= 3600 && cfg.operational
  }

  /** The Desktop is working, open, heard of and in service, of the profile, and where the task
      may run. */
  predicate Eligible(st: Pool, cfg: Config, i: Intent, route: set<nat>, s: nat, profile: string, now: int) {
    s in st.sessions &&
    var x := st.sessions[s];
    && Works(x) && !x.isSealed && x.drainAt.None? && x.blockedAt.None? && InService(st.allocations, x.allocation)
    && x.profile == profile && x.heartbeat.Some? && now - cfg.sessionTimeout <= x.heartbeat.value
    && (i.allowed != {} ==> x.allocation in i.allowed) && s in route && (i.node != "" ==> x.node == i.node)
  }

  /** The sharing contract that the task asks for. */
  function Asked(i: Intent): Request {
    Request(2, "", i.family, i.profile, i.policy, i.policy.Exclusive?, i.task, 0, 0, 0)
  }

  /** Everybody on the Desktop, and everybody a slot of it is kept for, shares with the task. */
  predicate SharesTask(st: Pool, i: Intent, s: nat) {
    && (forall o :: o in Owners(st.leases, s) ==> Compatible(st.leases[o].req, Asked(i)))
    && (forall r :: r in KeptSlots(st.reservations, s, 0) ==>
          && st.reservations[r].family != ""
          && ((i.policy.Family? && st.reservations[r].policy == Some(Family) && st.reservations[r].family == i.family)
              || (i.policy.SharedIfCompatible? && st.reservations[r].policy == Some(SharedIfCompatible))))
  }

  /** A registered Desktop out of quarantine with a free slot, whose owners and kept slots all
      share with the task. */
  predicate Candidate(st: Pool, cfg: Config, i: Intent, route: set<nat>, s: nat, now: int) {
    && Eligible(st, cfg, i, route, s, i.profile, now)
    && var x := st.sessions[s];
       && x.endpoint != "" && x.process != "" && (x.quarantineUntil.Some? ==> x.quarantineUntil.value <= now)
       && |Owners(st.leases, s)| + |KeptSlots(st.reservations, s, 0)| < x.slots
       && SharesTask(st, i, s)
  }

  /** The oldest standing automatic reservation of this Desktop generation. */
  predicate CohortHead(rs: Reservations, s: nat, generation: nat, h: nat) {
    && h in rs && Joins(rs[h], s, generation)
    && forall r :: r in rs && Joins(rs[r], s, generation) ==> h <= r
  }

  predicate Joins(r: Reservation, s: nat, generation: nat) {
    r.session == s && r.generation == generation && r.key.Auto? && Stands(r)
  }

  /** The new row: the task's contract on the Desktop, under the key and expiry of the cohort
      that stands there, or under a key of its own for the time asked for. */
  predicate AutoRow(st: Pool, i: Intent, s: nat, now: int, r: Reservation)
    requires s in st.sessions
  {
    var g := st.sessions[s].generation;
    && r == Reservation(r.key, i.task, s, g, i.profile, i.family, Some(i.policy), Reserved, None, r.expires)
    && (if exists h :: h in st.reservations && CohortHead(st.reservations, s, g, h) then
          exists h :: h in st.reservations && CohortHead(st.reservations, s, g, h)
            && r.key == st.reservations[h].key && r.expires == st.reservations[h].expires
        else r.key == Auto(s, g, i.nonce) && r.expires == now + i.ttl)
  }

  /** Another reservation of the task stands, or has the same key. */
  predicate Clashes(rs: Reservations, r: Reservation) {
    exists q :: q in rs && rs[q].task == r.task && (Stands(rs[q]) || rs[q].key == r.key)
  }

  /** A slot is reserved on the chosen candidate; a clash undoes the whole transaction; without a
      candidate nothing is reserved. */
  ghost predicate AutoReserved(before: Pool, st: Pool, su: Pool, cfg: Config, i: Intent, route: set<nat>, s: nat, now: int) {
    if Candidate(st, cfg, i, route, s, now) then
      exists r :: AutoRow(st, i, s, now, r) &&
        su == if Clashes(st.reservations, r) then before
              else st.(reservations := st.reservations[NextId(st.reservations.Keys) := r])
    else su == st
  }

  /** The newest reservation of the task still serves it. */
  predicate Serves(st: Pool, cfg: Config, i: Intent, route: set<nat>, r: Reservation, now: int) {
    && KeepsSlot(r) && Eligible(st, cfg, i, route, r.session, r.profile, now)
    && st.sessions[r.session].generation == r.generation
    && (r.family != "" ==> r.family == i.family && r.policy == Some(i.policy))
  }

  /** The cohort of the key fails: its leases and its standing reservations. */
  ghost predicate CohortFailed(st: Pool, su: Pool, key: CohortKey) {
    && su == st.(leases := su.leases, reservations := su.reservations)
    && su.leases.Keys == st.leases.Keys && su.reservations.Keys == st.reservations.Keys
    && (forall id :: id in st.leases ==>
          su.leases[id] == if PinnedTo(st, st.leases[id], key) && !LeaseEnded(st.leases[id])
                           then st.leases[id].(state := Failed) else st.leases[id])
    && (forall r :: r in st.reservations ==>
          su.reservations[r] == ReservationEnds(st.reservations[r], st.reservations[r].key == key, ResFailed))
  }

  /** A newest reservation that serves, or that an operator made, stays; a held one that does not
      serve fails with its cohort first. */
  ghost predicate TaskPrepared(before: Pool, st: Pool, su: Pool, cfg: Config, i: Intent, route: set<nat>, s: nat, now: int) {
    if !HasReservation(st.reservations, i.task) then AutoReserved(before, st, su, cfg, i, route, s, now)
    else
      exists n :: Latest(st.reservations, i.task, n) &&
        var r := st.reservations[n];
        if Serves(st, cfg, i, route, r, now) || r.key.Operator? then su == st
        else if KeepsSlot(r) then
          exists failed: Pool :: CohortFailed(st, failed, r.key) && AutoReserved(before, failed, su, cfg, i, route, s, now)
        else AutoReserved(before, st, su, cfg, i, route, s, now)
  }

  /** What preparing a task does to the refreshed tables: nothing for a task that is not queued or
      that the target does not admit; a task that is not pooled is refused. */
  ghost predicate PrepareJudged(before: Pool, st: Pool, su: Pool, cfg: Config, i: Intent, route: set<nat>, s: nat, now: int) {
    if i.task !in st.tasks || !st.tasks[i.task].status.TaskQueued? then su == st
    else if !st.tasks[i.task].pooled then su == before
    else if |Admitted(st.leases, st.reservations) - {ForTask(i.task)}| >= cfg.target then su == st
    else TaskPrepared(before, st, su, cfg, i, route, s, now)
  }

  lemma CandidateIs(st: Pool, cfg: Config, i: Intent, route: set<nat>, s: nat, now: int)
    ensures s in st.sessions && AutoCandidate(st, cfg, i, route, s, now) <==> Candidate(st, cfg, i, route, s, now)
  {
    SameOwners(st.leases, s);
    SameKeptSlots(st.reservations, s, 0);
    if s in st.sessions {
      AutoFitsIs(st, i, s);
    }
    hide AutoFits, Owners, KeptSlots, Holders, HeldByOthers;
  }

  lemma AutoFitsIs(st: Pool, i: Intent, s: nat)
    ensures AutoFits(st, i, s) <==> SharesTask(st, i, s)
  {
    assert forall o :: o in st.leases && Holder(st.leases[o], s) <==> o in Owners(st.leases, s);
    SameKeptSlots(st.reservations, s, 0);
  }

  lemma HeadIs(rs: Reservations, s: nat, generation: nat)
    ensures
      var cohort := set q | q in rs && AutoCohort(rs[q], s, generation);
      && (cohort == {} <==> !exists h :: h in rs && CohortHead(rs, s, generation, h))
      && (cohort != {} ==> CohortHead(rs, s, generation, Least(cohort)))
  {
    var cohort := set q | q in rs && AutoCohort(rs[q], s, generation);
    assert forall q :: q in cohort <==> q in rs && Joins(rs[q], s, generation);
    hide AutoCohort, Joins;
    if cohort != {} {
      assert CohortHead(rs, s, generation, Least(cohort));
    }
  }

  lemma AutoRowIs(st: Pool, i: Intent, s: nat, now: int)
    requires s in st.sessions
    ensures AutoRow(st, i, s, now, AutoReservation(st, i, s, now))
  {
    var g := st.sessions[s].generation;
    HeadIs(st.reservations, s, g);
    hide AutoCohort, CohortHead;
    var cohort := set q | q in st.reservations && AutoCohort(st.reservations[q], s, g);
    if cohort != {} {
      var h := Least(cohort);
      assert h in st.reservations && CohortHead(st.reservations, s, g, h);
    }
  }

  lemma ReservesAuto(before: Pool, st: Pool, cfg: Config, i: Intent, route: set<nat>, s: nat, now: int)
    ensures AutoReserved(before, st, ReserveAuto(before, st, cfg, i, route, s, now), cfg, i, route, s, now)
  {
    CandidateIs(st, cfg, i, route, s, now);
    hide AutoCandidate, Candidate, AutoReservation, AutoRow, NextId;
    if Candidate(st, cfg, i, route, s, now) {
      AutoRowIs(st, i, s, now);
      var r := AutoReservation(st, i, s, now);
      assert Collides(st.reservations, r) <==> Clashes(st.reservations, r);
      hide Collides, Clashes;
    }
  }

  lemma ServesIs(st: Pool, cfg: Config, i: Intent, route: set<nat>, r: Reservation, now: int)
    ensures r.state.Held() && LatestUsable(st, cfg, i, route, r, now) <==> Serves(st, cfg, i, route, r, now)
  {
  }

  lemma FailsCohort(st: Pool, key: CohortKey, now: int)
    ensures CohortFailed(st, FailCohorts(st, {key}, false, now), key)
  {
    hide FailCohorts;
    FailsNoDesktop(st, {key}, now);
    FailRows(st, {key}, false, now);
  }

  lemma AdmittedExceptIs(st: Pool, task: nat)
    requires task != 0
    ensures AdmittedExcept(st, task) == Admitted(st.leases, st.reservations) - {ForTask(task)}
  {
  }

  lemma PreparesTask(before: Pool, st: Pool, cfg: Config, i: Intent, route: set<nat>, s: nat, now: int)
    ensures
      var newest := Newest(st.reservations, i.task);
      var su :=
        if newest.None? then ReserveAuto(before, st, cfg, i, route, s, now)
        else
          var r := st.reservations[newest.value];
          if r.state.Held() && LatestUsable(st, cfg, i, route, r, now) then st
          else if r.key.Operator? then st
          else if r.state.Held() then
            ReserveAuto(before, FailCohorts(st, {r.key}, false, now), cfg, i, route, s, now)
          else ReserveAuto(before, st, cfg, i, route, s, now);
      TaskPrepared(before, st, su, cfg, i, route, s, now)
  {
    hide ReserveAuto, AutoReserved, LatestUsable, Serves, FailCohorts, CohortFailed;
    var newest := Newest(st.reservations, i.task);
    ReservesAuto(before, st, cfg, i, route, s, now);
    if newest.Some? {
      assert Latest(st.reservations, i.task, newest.value) && HasReservation(st.reservations, i.task);
      var r := st.reservations[newest.value];
      ServesIs(st, cfg, i, route, r, now);
      var failed := FailCohorts(st, {r.key}, false, now);
      FailsCohort(st, r.key, now);
      ReservesAuto(before, failed, cfg, i, route, s, now);
    }
    hide Newest;
  }

  ghost predicate TaskHandled(st: Pool, su: Pool, cfg: Config, i: Intent, route: set<nat>, s: nat, now: int)
  {
    if WellIntended(i, cfg) then
      exists mid: Pool :: RefreshRuns(st, mid, now) && PrepareJudged(st, mid, su, cfg, i, route, s, now)
    else su == st
  }

  lemma PrepareOutcome(st: Pool, cfg: Config, i: Intent, route: set<nat>, s: nat, now: int)
    ensures TaskHandled(st, PrepareTask(st, cfg, i, route, s, now), cfg, i, route, s, now)
  {
    hide RefreshReservations, RefreshRuns, ReserveAuto, LatestUsable, FailCohorts, AdmittedExcept, TaskPrepared, Newest;
    if WellIntended(i, cfg) {
      var mid := RefreshReservations(st, now);
      RefreshOutcome(st, now);
      AdmittedExceptIs(mid, i.task);
      PreparesTask(st, mid, cfg, i, route, s, now);
      assert PrepareJudged(st, mid, PrepareTask(st, cfg, i, route, s, now), cfg, i, route, s, now);
    }
  }
}
