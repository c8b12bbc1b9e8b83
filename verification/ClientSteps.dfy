/** The transactions of lease clients and operators. A refused request leaves
    the database as it was. */
module PoolClient {
  import opened PoolRows
  import opened PoolCalm
  import opened PoolRefresh
  import opened PoolPlacement
  import opened PoolSolve
  import opened PoolEntry
  import opened PoolEntryProofs
  import opened PoolCursor

  // ----- request_lease -----

  /** The client's assertions, before the server adds the pin it authorised. */
  datatype Wish = Wish(
    key: string, token: string, req: Request, assertedSession: nat,
    allocation: nat, node: string, deadline: int)

  /** Reservations of the task; the newest one is authoritative. */
  function Newest(rs: Reservations, task: nat): (r: Option<nat>)
    ensures r.Some? ==> r.value in rs && rs[r.value].task == task
    ensures r.None? ==> forall q :: q in rs ==> rs[q].task != task
    ensures r.Some? ==> forall q :: q in rs && rs[q].task == task ==> q <= r.value
  {
    var mine := set q | q in rs && rs[q].task == task;
    assert forall q :: q in rs && rs[q].task == task ==> q in mine;
    if mine == {} then None else Some(Greatest(mine))
  }

  function Greatest(ids: set<nat>): (g: nat)
    requires ids != {}
    ensures g in ids && forall i :: i in ids ==> i <= g
  {
    var a := Least(ids);
    if ids == {a} then a
    else
      var g := Greatest(ids - {a});
      assert forall i :: i in ids ==> i == a || i in ids - {a};
      g
  }

  predicate SameContract(r: Reservation, q: Request) {
    r.profile == q.profile && (r.family == "" || (r.family == q.family && r.policy == Some(q.policy)))
  }

  /** The reservation was claimed by this very request. */
  predicate Replays(st: Pool, r: Reservation, w: Wish) {
    r.lease.Some? && r.lease.value in st.leases
    && st.leases[r.lease.value].key == w.key && st.leases[r.lease.value].token == w.token
  }

  predicate TargetReady(st: Pool, cfg: Config, r: Reservation, now: int) {
    && r.session in st.sessions
    && var x := st.sessions[r.session];
       && x.state.Assignable() && x.generation == r.generation && x.profile == r.profile
       && !x.isSealed && x.drainAt.None?
       && x.allocation in st.allocations && st.allocations[x.allocation].Usable()
       && x.heartbeat.Some? && x.heartbeat.value >= now - cfg.sessionTimeout
  }

  datatype Authority = Unpinned | Pinned(id: nat) | Denied

  /** A task with a reservation gets exactly its reserved Desktop or nothing. */
  function Authorize(st: Pool, cfg: Config, w: Wish, now: int): Authority {
    if w.req.task == 0 then (if w.assertedSession != 0 then Denied else Unpinned)
    else
      var newest := Newest(st.reservations, w.req.task);
      if newest.None? then (if w.assertedSession != 0 then Denied else Unpinned)
      else
        var r := st.reservations[newest.value];
        if w.assertedSession != 0 && w.assertedSession != r.session then Denied
        else if !SameContract(r, w.req) then Denied
        else if Replays(st, r, w) then Pinned(newest.value)
        else if !r.state.Reserved? || r.expires <= now || !TargetReady(st, cfg, r, now) then Denied
        else Pinned(newest.value)
  }

  function WithKey(ls: Leases, key: string): set<nat> {
    set id | id in ls && ls[id].key == key
  }

  /** The holder of the request key gave it up: finished, or queued or offered and
      past its time. */
  predicate Replaceable(st: Pool, l: Lease, now: int) {
    || l.state.Terminal()
    || (l.state.Queued? && (l.expires <= now || l.deadline <= now || TaskOver(st.tasks, l.req.task)))
    || (l.state.Offered? && (l.offerExpires <= now || TaskOver(st.tasks, l.req.task)))
  }

  /** Free the request key; an abandoned lease expires and gives its slot back. */
  function Supersede(st: Pool, id: nat, archived: string): Pool
    requires id in st.leases
  {
    var l := st.leases[id];
    if l.state.Terminal() then st.(leases := st.leases[id := l.(key := archived)])
    else
      var su := st.(leases := st.leases[id := l.(key := archived, state := Expired, session := None, slot := 0)]);
      if l.session.Some? then RefreshSessions(su, {l.session.value}) else su
  }

  function Archived(key: string, id: nat): string {
    key + "#superseded:" + Digits(id)
  }

  function Digits(n: nat): string {
    if n < 10 then [('0' as int + n) as char] else Digits(n / 10) + [('0' as int + n % 10) as char]
  }

  /** The row that is inserted: the pin comes from the reservation, never from the client. */
  function NewLease(st: Pool, cfg: Config, w: Wish, pin: Option<nat>, now: int): Lease
    requires pin.Some? ==> pin.value in st.reservations
  {
    var q := if pin.Some?
             then w.req.(pin := pin.value, pinSession := st.reservations[pin.value].session,
                         pinGeneration := st.reservations[pin.value].generation)
             else w.req.(pin := 0, pinSession := 0, pinGeneration := 0);
    Lease(q.(exclusive := q.exclusive || q.policy.Exclusive?), w.key, w.token, Queued, None, 0, None, None,
          w.allocation, if w.allocation == 0 then "" else w.node,
          now, now + cfg.leaseTtl, 0, w.deadline, None)
  }

  /** Insert unless the same request was inserted before. */
  function Enter(st: Pool, cfg: Config, w: Wish, pin: Option<nat>, now: int): Option<(Pool, nat)>
    requires pin.Some? ==> pin.value in st.reservations
  {
    var same := WithKey(st.leases, w.key);
    if same == {} then Inserted(st, cfg, w, pin, now)
    else
      var id := Least(same);
      if st.leases[id].token == w.token then Some((st, id))
      else if !Replaceable(st, st.leases[id], now) then None
      else
        var su := Supersede(st, id, Archived(w.key, id));
        Inserted(su, cfg, w, pin, now)
  }

  function Inserted(st: Pool, cfg: Config, w: Wish, pin: Option<nat>, now: int): Option<(Pool, nat)>
    requires pin.Some? ==> pin.value in st.reservations
  {
    if pin.Some? && !(st.reservations[pin.value].state.Reserved? && st.reservations[pin.value].lease.None?)
    then None
    else Some((AddLease(st, NewLease(st, cfg, w, pin, now)), NextId(st.leases.Keys)))
  }

  function RequestLease(st: Pool, cfg: Config, w: Wish, now: int): Pool {
    if w.deadline <= now then st
    else
      var su := RefreshReservations(st, now);
      match Authorize(su, cfg, w, now)
      case Denied => st
      case Unpinned => Admit(st, Enter(su, cfg, w, None, now), cfg, now)
      case Pinned(pin) => if pin in su.reservations then Admit(st, Enter(su, cfg, w, Some(pin), now), cfg, now) else st
  }

  function Admit(st: Pool, entered: Option<(Pool, nat)>, cfg: Config, now: int): Pool {
    if entered.None? then st else PlaceNamed(entered.value.0, cfg, entered.value.1, now)
  }

  // ----- create_exact_session_reservation -----

  predicate CohortAdmissible(st: Pool, cfg: Config, r: Reservation, tasks: seq<nat>)
  {
    && cfg.target > 0 && |Admitted(st.leases, st.reservations)| + |tasks| <= cfg.target
    && r.session in st.sessions
    && var x := st.sessions[r.session];
       && x.state.Assignable() && x.generation == r.generation && x.profile == r.profile
       && !x.isSealed && x.drainAt.None?
       && x.allocation in st.allocations && st.allocations[x.allocation].Usable()
       && (forall t :: t in tasks ==>
             t in st.tasks && !st.tasks[t].status.TaskTerminal? && st.tasks[t].pooled)
       && (forall q :: q in st.reservations && st.reservations[q].state.Live() ==> st.reservations[q].task !in tasks)
       && (forall id :: id in st.leases && st.leases[id].state.Live() ==> st.leases[id].req.task !in tasks)
       && |tasks| <= FreeSlots(st, r.session)
  }

  /** All tasks of the cohort get a slot, or none does. */
  function CreateReservation(st: Pool, cfg: Config, name: string, s: nat, generation: nat, profile: string,
                             tasks: set<nat>, ttl: int, now: int): Pool
  {
    if name == "" || tasks == {} || 0 in tasks || !(60 <= ttl <= 3600) then st
    else
      var su := RefreshReservations(st, now);
      var r := Reservation(Operator(name), 0, s, generation, profile, "", None, Reserved, None, now + ttl);
      if exists q :: q in su.reservations && su.reservations[q].key == Operator(name) then
        // the same cohort is a replay, any other one is refused
        (if SameCohort(su.reservations, r, tasks) then su else st)
      else if CohortAdmissible(su, cfg, r, InOrder(tasks)) then AddReservations(su, r, InOrder(tasks))
      else st
  }

  predicate SameCohort(rs: Reservations, r: Reservation, tasks: set<nat>) {
    && (set q | q in rs && rs[q].key == r.key :: rs[q].task) == tasks
    && forall q :: q in rs && rs[q].key == r.key ==>
         rs[q].session == r.session && rs[q].generation == r.generation && rs[q].profile == r.profile
  }

  // ----- prepare_pooled_task_session -----

  datatype Intent = Intent(task: nat, profile: string, family: string, policy: Policy,
                           allowed: set<nat>, node: string, ttl: int, nonce: string)

  /** Sharing contract of an automatic reservation with the owners and the other holds. */
  predicate AutoFits(st: Pool, i: Intent, s: nat) {
    && (forall o :: o in st.leases && Holder(st.leases[o], s) ==>
          var q := st.leases[o].req;
          !i.policy.Exclusive? && q.protocol >= 2 && q.profile == i.profile && !q.exclusive
          && (if i.policy.Family? then q.policy.Family? && q.family == i.family
              else q.policy.SharedIfCompatible?))
    && (forall r :: r in HeldByOthers(st.reservations, s, 0) ==>
          var h := st.reservations[r];
          !i.policy.Exclusive? && h.family != "" && h.policy.Some?
          && (if i.policy.Family? then h.policy == Some(Family) && h.family == i.family
              else h.policy == Some(SharedIfCompatible)))
  }

  /** The Desktop has a slot for the task. `route` stands for account and partition routing. */
  predicate AutoCandidate(st: Pool, cfg: Config, i: Intent, route: set<nat>, s: nat, now: int)
    requires s in st.sessions
  {
    var x := st.sessions[s];
    && x.state.Assignable() && x.allocation in st.allocations && st.allocations[x.allocation].Usable()
    && x.heartbeat.Some? && x.heartbeat.value >= now - cfg.sessionTimeout
    && (x.quarantineUntil.None? || x.quarantineUntil.value <= now)
    && x.profile == i.profile && x.endpoint != "" && x.process != ""
    && x.blockedAt.None? && !x.isSealed && x.drainAt.None?
    && (i.allowed == {} || x.allocation in i.allowed) && s in route && (i.node == "" || x.node == i.node)
    && FreeSlots(st, s) > 0 && AutoFits(st, i, s)
  }

  /** A live automatic cohort of this Desktop generation. */
  predicate AutoCohort(r: Reservation, s: nat, generation: nat) {
    r.session == s && r.generation == generation && r.key.Auto? && r.state.Live()
  }

  /** A new automatic reservation joins the live cohort of its Desktop, with that
      cohort's expiry; without one it starts a cohort. */
  function AutoReservation(st: Pool, i: Intent, s: nat, now: int): Reservation
    requires s in st.sessions
  {
    var generation := st.sessions[s].generation;
    var cohort := set q | q in st.reservations && AutoCohort(st.reservations[q], s, generation);
    var alone := Reservation(Auto(s, generation, i.nonce), i.task, s, generation, i.profile, i.family,
                             Some(i.policy), Reserved, None, now + i.ttl);
    if cohort == {} then alone
    else
      var first := st.reservations[Least(cohort)];
      alone.(key := first.key, expires := first.expires)
  }

  predicate LatestUsable(st: Pool, cfg: Config, i: Intent, route: set<nat>, r: Reservation, now: int) {
    && r.session in st.sessions
    && var x := st.sessions[r.session];
       && x.state.Assignable() && x.allocation in st.allocations && st.allocations[x.allocation].Usable()
       && x.generation == r.generation && x.profile == r.profile
       && x.heartbeat.Some? && x.heartbeat.value >= now - cfg.sessionTimeout
       && x.blockedAt.None? && !x.isSealed && x.drainAt.None?
       && (i.allowed == {} || x.allocation in i.allowed) && r.session in route
       && (i.node == "" || x.node == i.node)
       && (r.family == "" || (r.family == i.family && r.policy == Some(i.policy)))
  }

  /** The admissions that would remain without the task. */
  function AdmittedExcept(st: Pool, task: nat): set<Admission> {
    (set id | id in st.leases && st.leases[id].state.Holds() && st.leases[id].req.task != task
       :: AdmissionKey(id, st.leases[id]))
    + (set r | r in st.reservations && st.reservations[r].state.Held() && st.reservations[r].task != task
         :: ForTask(st.reservations[r].task))
  }

  /** `chosen` is the first candidate in the service's order, if there is one. */
  function PrepareTask(st: Pool, cfg: Config, i: Intent, route: set<nat>, chosen: nat, now: int): Pool {
    if i.task == 0 || i.family == "" || !(60 <= i.ttl <= 3600) || !cfg.operational then st
    else
      var su := RefreshReservations(st, now);
      if i.task !in su.tasks || !su.tasks[i.task].status.TaskQueued? then su
      else if !su.tasks[i.task].pooled then st
      else if cfg.target <= 0 || |AdmittedExcept(su, i.task)| >= cfg.target then su
      else
        var newest := Newest(su.reservations, i.task);
        if newest.None? then ReserveAuto(st, su, cfg, i, route, chosen, now)
        else
          var r := su.reservations[newest.value];
          if r.state.Held() && LatestUsable(su, cfg, i, route, r, now) then su
          else if r.key.Operator? then su
          else if r.state.Held() then
            ReserveAuto(st, FailCohorts(su, {r.key}, false, now), cfg, i, route, chosen, now)
          else ReserveAuto(st, su, cfg, i, route, chosen, now)
  }

  /** The unique indexes: one live reservation of a task, one row of a task under a key. */
  predicate Collides(rs: Reservations, r: Reservation) {
    exists q :: q in rs && rs[q].task == r.task && (rs[q].state.Live() || rs[q].key == r.key)
  }

  /** A refused insert rolls the whole transaction back to `before`. */
  function ReserveAuto(before: Pool, st: Pool, cfg: Config, i: Intent, route: set<nat>, chosen: nat, now: int): Pool {
    if chosen in st.sessions && AutoCandidate(st, cfg, i, route, chosen, now) then
      var r := AutoReservation(st, i, chosen, now);
      if Collides(st.reservations, r) then before else AddReservation(st, r)
    else st
  }

  // ----- the client's use of a lease -----

  predicate Authorized(st: Pool, id: nat, token: string) {
    id in st.leases && st.leases[id].token == token
  }

  function HeartbeatLease(st: Pool, cfg: Config, id: nat, token: string, now: int): Pool {
    if !Authorized(st, id, token) || !st.leases[id].state.Live() then st
    else
      var l := st.leases[id];
      var su := st.(leases := st.leases[id := l.(
        state := if l.req.protocol < 2 && l.state.Leased? then Active else l.state,
        heartbeat := now, expires := now + cfg.leaseTtl,
        offerExpires := if l.req.protocol >= 2 && l.state.Offered? then now + cfg.offerAck else l.offerExpires)]);
      if l.state.Queued? && cfg.operational then PlaceNamed(RefreshReservations(su, now), cfg, id, now) else su
  }

  /** The reservation no longer backs the offer. */
  predicate PinBroken(st: Pool, id: nat)
    requires id in st.leases
  {
    var l := st.leases[id];
    l.req.pin != 0 &&
    (l.req.pin !in st.reservations ||
     var r := st.reservations[l.req.pin];
     || !r.state.Consumed? || r.lease != Some(id) || Some(r.session) != l.session
     || r.generation != l.req.pinGeneration || !SameContract(r, l.req))
  }

  predicate TargetGone(st: Pool, cfg: Config, id: nat, now: int)
    requires id in st.leases
  {
    var l := st.leases[id];
    || PinBroken(st, id) || l.session.None? || l.session.value !in st.sessions
    || var x := st.sessions[l.session.value];
       || !x.state.Assignable()
       || !(x.allocation in st.allocations && st.allocations[x.allocation].Usable())
       || x.isSealed || x.drainAt.Some?
       || (l.req.pinSession != 0 && l.session.value != l.req.pinSession)
       || (l.req.pinGeneration != 0 && x.generation != l.req.pinGeneration)
       || x.profile != l.req.profile
       || x.heartbeat.None? || x.heartbeat.value < now - cfg.sessionTimeout
       || x.endpoint == "" || x.process == ""
  }

  predicate Transient(st: Pool, id: nat, now: int)
    requires id in st.leases
  {
    var l := st.leases[id];
    || l.offerExpires <= now
    || (l.session.Some? && l.session.value in st.sessions &&
        (st.sessions[l.session.value].blockedAt.Some? ||
         exists o :: o in st.leases && st.leases[o].state.Releasing? && st.leases[o].session == l.session))
  }

  /** Offers go back to the queue, and the reservations they consumed back to claimed. */
  function RequeueOffers(st: Pool, ids: set<nat>): Pool {
    st.(leases := map id | id in st.leases ::
          if id in ids && st.leases[id].state.Offered?
          then st.leases[id].(state := Queued, session := None, slot := 0, permit := None)
          else st.leases[id],
        reservations := map r | r in st.reservations ::
          if st.reservations[r].state.Consumed? && st.reservations[r].lease.Some?
             && st.reservations[r].lease.value in ids && st.reservations[r].lease.value in st.leases
             && st.leases[st.reservations[r].lease.value].state.Offered?
          then st.reservations[r].(state := Claimed) else st.reservations[r])
  }

  /** The offer is refused for good: the whole cohort fails. */
  function RefuseOffer(st: Pool, id: nat, now: int): Pool
    requires id in st.leases
  {
    var l := st.leases[id];
    var su := if l.req.pin in st.reservations
              then FailCohorts(st, {st.reservations[l.req.pin].key}, false, now) else st;
    var sv := FailLeases(su, {id});
    if l.session.Some? then RefreshSessions(sv, {l.session.value}) else sv
  }

  function RevokeOffer(st: Pool, cfg: Config, id: nat, now: int): Pool
    requires id in st.leases
  {
    var l := st.leases[id];
    var su := RequeueOffers(st.(leases := st.leases[id := l.(heartbeat := now, expires := now + cfg.leaseTtl)]), {id});
    if l.session.Some? then RefreshSessions(su, {l.session.value}) else su
  }

  function AcceptLease(st: Pool, cfg: Config, id: nat, token: string, now: int): Pool {
    if !Authorized(st, id, token) || st.leases[id].req.protocol < 2 || !st.leases[id].state.Offered? then st
    else if st.leases[id].req.pin != 0 && TargetGone(st, cfg, id, now) then RefuseOffer(st, id, now)
    else if TargetGone(st, cfg, id, now) || Transient(st, id, now) then RevokeOffer(st, cfg, id, now)
    else
      st.(leases := st.leases[id := st.leases[id].(
        state := Attaching, heartbeat := now, expires := now + cfg.leaseTtl)])
  }

  /** `seenState` and `seenSession` come from a read before the transaction. */
  function ActivateLease(safe: set<string>, st: Pool, cfg: Config, id: nat, token: string,
                         seenState: LeaseState, seenSession: nat, now: int): Pool
  {
    if !Authorized(st, id, token) || st.leases[id].state != seenState
       || (if st.leases[id].req.protocol < 2 then !seenState.Leased? else !seenState.Attaching?) then st
    else
      var su := st.(leases := st.leases[id := st.leases[id].(
        state := Active, heartbeat := now, expires := now + cfg.leaseTtl)]);
      if seenSession == 0 then su else GrantBatch(safe, su, seenSession, now, false)
  }

  function RequestSolvePermit(safe: set<string>, st: Pool, cfg: Config, id: nat, token: string,
                              underfilled: bool, now: int): Pool
  {
    if !Authorized(st, id, token) || !st.leases[id].state.Active? then st
    else
      var l := st.leases[id];
      var su := st.(leases := st.leases[id := l.(heartbeat := now, expires := now + cfg.leaseTtl)]);
      if l.session.None? then su else GrantBatch(safe, su, l.session.value, now, underfilled)
  }

  function CompletePipeline(st: Pool, cfg: Config, id: nat, token: string, generation: nat, now: int): Pool {
    if !Authorized(st, id, token) || !st.leases[id].state.Active? || generation == 0
       || st.leases[id].session.None? || st.leases[id].permit != Some(generation) then st
    else
      MarkPipeline(st.(leases := st.leases[id := st.leases[id].(heartbeat := now, expires := now + cfg.leaseTtl)]), id)
  }

  /** A lease that may own a project releases in two phases; any other one ends at once. */
  function CancelLease(st: Pool, id: nat, token: string, now: int): Pool {
    if !Authorized(st, id, token) || st.leases[id].state.Terminal() then st
    else
      var l := st.leases[id];
      if (OwnsProject(l) || (l.state.Leased? && l.req.protocol < 2)) && l.session.Some? then
        var su := BlockSessions(st, {l.session.value}, now);
        su.(leases := su.leases[id := l.(state := Releasing, releaseAt := Some(now))])
      else
        var su := st.(leases := st.leases[id := l.(state := Cancelled, session := None, slot := 0)]);
        if l.session.Some? then RefreshSessions(su, {l.session.value}) else su
  }

  // ----- faults a client reports -----

  function DrainAllocation(st: Pool, a: nat, reason: DrainReason): Pool {
    if a in st.allocations && st.allocations[a].Open()
    then st.(allocations := st.allocations[a := st.allocations[a].(state := AllocDraining, reason := reason)])
    else st
  }

  predicate TimesOut(st: Pool, id: nat) {
    id in st.leases && (st.leases[id].state.Leased? || st.leases[id].state.Attaching? || st.leases[id].state.Active?)
  }

  function CloseTimedOut(st: Pool, id: nat, now: int): Pool {
    if TimesOut(st, id)
    then st.(leases := st.leases[id := st.leases[id].(state := Releasing, releaseAt := Some(now))])
    else st
  }

  function QuarantineSeen(st: Pool, s: nat, until: int, fault: Fault, now: int): Pool {
    if s in st.sessions && (st.sessions[s].state.Assignable() || st.sessions[s].state.Draining?)
    then st.(sessions := st.sessions[s := st.sessions[s].(
           state := Draining, quarantine := OtherQuarantine, quarantineUntil := Some(until), fault := fault,
           blockedAt := Coalesce(st.sessions[s].blockedAt, now), drainAt := Coalesce(st.sessions[s].drainAt, now))])
    else st
  }

  /** The Desktop and its allocation were read before the transaction; an unhealthy
      Desktop is skipped by the barrier update. */
  function SolverTimeout(st: Pool, id: nat, seenSession: nat, seenAllocation: nat,
                         until: int, fault: Fault, now: int): Pool
  {
    DrainAllocation(QuarantineSeen(CloseTimedOut(st, id, now), seenSession, until, fault, now),
                    seenAllocation, PoolReason)
  }

  function SuspectTransport(st: Pool, s: nat): Pool {
    if s in st.sessions && st.sessions[s].state.Assignable()
    then st.(sessions := st.sessions[s := st.sessions[s].(state := Unhealthy, fault := TransportSuspect, drainAt := None)])
    else st
  }

  function ReportDeath(st: Pool, s: nat, fault: Fault, now: int): Pool {
    if s !in st.sessions then st
    else
      var x := st.sessions[s];
      var su := if x.state.Assignable() || x.state.Draining?
                then st.(sessions := st.sessions[s := x.(
                       state := Unhealthy, fault := fault, quarantine := OtherQuarantine,
                       drainAt := Coalesce(x.drainAt, now))])
                else st;
      DrainAllocation(su, x.allocation, PoolReason)
  }
}
