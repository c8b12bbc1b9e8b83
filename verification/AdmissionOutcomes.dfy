/** Who gets into the queue, and which slots are reserved: exactly, on rows. */
module PoolAdmissionOutcomes {
  import opened PoolRows
  import opened PoolTerms
  import opened PoolInvariant
  import opened PoolCalm
  import opened PoolRefresh
  import opened PoolRefreshProofs
  import opened PoolSolve
  import opened PoolEntry
  import opened PoolCursor
  import opened PoolClient
  import opened PoolReaping
  import opened PoolRefreshing
  import opened PoolFitting
  import opened PoolClientOutcomes
  import opened PoolHostProofs
  import opened PoolAdmissionProofs

  // ----- which reservation a request must use -----

  /** The newest reservation of the task. */
  predicate Latest(rs: Reservations, task: nat, r: nat) {
    r in rs && rs[r].task == task && forall q :: q in rs && rs[q].task == task ==> q <= r
  }

  predicate HasReservation(rs: Reservations, task: nat) {
    exists r :: r in rs && rs[r].task == task
  }

  predicate ContractAgrees(r: Reservation, profile: string, family: string, policy: Policy) {
    r.profile == profile && (r.family != "" ==> r.family == family && r.policy == Some(policy))
  }

  /** The reservation was claimed by this very request. */
  predicate ByThisRequest(st: Pool, r: Reservation, w: Wish) {
    exists id :: id in st.leases && r.lease == Some(id) && st.leases[id].key == w.key && st.leases[id].token == w.token
  }

  /** The Desktop is what was reserved, working, open, in service and heard of. */
  predicate TargetOpen(st: Pool, cfg: Config, r: Reservation, now: int) {
    r.session in st.sessions &&
    var x := st.sessions[r.session];
    && Works(x) && !x.isSealed && x.drainAt.None? && InService(st.allocations, x.allocation)
    && x.generation == r.generation && x.profile == r.profile
    && x.heartbeat.Some? && now - cfg.sessionTimeout <= x.heartbeat.value
  }

  /** The request may enter with this pin: a task with reservations needs its newest one, which
      must fit the request and be open or already its own; any other request has no pin and may
      not assert a Desktop. */
  predicate Authorises(st: Pool, cfg: Config, w: Wish, now: int, pin: Option<nat>) {
    if w.req.task == 0 || !HasReservation(st.reservations, w.req.task) then pin.None? && w.assertedSession == 0
    else
      pin.Some? && Latest(st.reservations, w.req.task, pin.value) &&
      var r := st.reservations[pin.value];
      && (w.assertedSession != 0 ==> w.assertedSession == r.session)
      && ContractAgrees(r, w.req.profile, w.req.family, w.req.policy)
      && (ByThisRequest(st, r, w) || (r.state.Reserved? && now < r.expires && TargetOpen(st, cfg, r, now)))
  }

  lemma AuthorityIs(st: Pool, cfg: Config, w: Wish, now: int, pin: Option<nat>)
    ensures
      Authorises(st, cfg, w, now, pin)
      <==> match Authorize(st, cfg, w, now)
           case Denied => false
           case Unpinned => pin.None?
           case Pinned(n) => pin == Some(n)
  {
    if w.req.task != 0 && HasReservation(st.reservations, w.req.task) {
      var newest := Newest(st.reservations, w.req.task);
      assert newest.Some? && Latest(st.reservations, w.req.task, newest.value);
      var r := st.reservations[newest.value];
      assert ByThisRequest(st, r, w) <==> Replays(st, r, w);
      assert TargetOpen(st, cfg, r, now) <==> TargetReady(st, cfg, r, now);
      hide ByThisRequest, Replays, TargetOpen, TargetReady;
      if pin.Some? && Latest(st.reservations, w.req.task, pin.value) {
        assert pin.value == newest.value;
      }
      hide Newest;
    }
  }

  // ----- the new row -----

  /** The oldest lease that has the request key. */
  predicate KeyHolder(ls: Leases, key: string, h: nat) {
    h in ls && ls[h].key == key && forall i :: i in ls && ls[i].key == key ==> h <= i
  }

  predicate KeyFree(ls: Leases, key: string) {
    forall i :: i in ls ==> ls[i].key != key
  }

  /** Ended, or waiting beyond its time or for an ended task: the key may be used again. */
  predicate Abandoned(st: Pool, l: Lease, now: int) {
    || LeaseEnded(l)
    || (l.state.Queued? && (l.expires <= now || l.deadline <= now || TaskEnded(st.tasks, l.req.task)))
    || (l.state.Offered? && (l.offerExpires <= now || TaskEnded(st.tasks, l.req.task)))
  }

  /** The old row keeps its history under an archived key; if it was waiting, it expires and
      gives its slot back. */
  ghost predicate Superseded(st: Pool, su: Pool, h: nat, key: string)
    requires h in st.leases
  {
    var l := st.leases[h];
    && su == st.(leases := su.leases, sessions := su.sessions) && su.sessions.Keys == st.sessions.Keys
    && su.leases == st.leases[h := if LeaseEnded(l) then l.(key := Archived(key, h))
                                   else l.(key := Archived(key, h), state := Expired, session := None, slot := 0)]
    && (forall s :: s in st.sessions ==>
          su.sessions[s] == Left(st.sessions[s], !LeaseEnded(l) && l.session == Some(s), Vacant(su.leases, s)))
  }

  /** The row of the request: queued, alive for its lifetime, and pinned as authorised. */
  predicate NewRow(rs: Reservations, cfg: Config, w: Wish, pin: Option<nat>, now: int, l: Lease) {
    && l.state.Queued? && l.key == w.key && l.token == w.token
    && l.session.None? && l.slot == 0 && l.permit.None? && l.marker.None? && l.releaseAt.None? && l.offerExpires == 0
    && l.heartbeat == now && l.expires == now + cfg.leaseTtl && l.deadline == w.deadline
    && l.wantAllocation == w.allocation && (w.allocation != 0 ==> l.wantNode == w.node)
    && (w.allocation == 0 ==> l.wantNode == "")
    && l.req == w.req.(pin := l.req.pin, pinSession := l.req.pinSession, pinGeneration := l.req.pinGeneration,
                       exclusive := w.req.exclusive || w.req.policy.Exclusive?)
    && (if pin.Some? then
          pin.value in rs && l.req.pin == pin.value && l.req.pinSession == rs[pin.value].session
          && l.req.pinGeneration == rs[pin.value].generation
        else l.req.pin == 0 && l.req.pinSession == 0 && l.req.pinGeneration == 0)
  }

  /** A pinned request finds its reservation unclaimed. */
  predicate Unclaimed(rs: Reservations, pin: Option<nat>) {
    pin.Some? ==> pin.value in rs && rs[pin.value].state.Reserved? && rs[pin.value].lease.None?
  }

  ghost predicate InsertsRow(st: Pool, su: Pool, cfg: Config, w: Wish, pin: Option<nat>, now: int, id: nat) {
    && id == NextId(st.leases.Keys) && Unclaimed(st.reservations, pin)
    && su == st.(leases := su.leases, reservations := su.reservations)
    && id in su.leases && su.leases == st.leases[id := su.leases[id]]
    && NewRow(st.reservations, cfg, w, pin, now, su.leases[id])
    && su.reservations == (if pin.Some? && pin.value in st.reservations && pin.value != 0
                           then st.reservations[pin.value := st.reservations[pin.value].(state := Claimed, lease := Some(id))]
                           else st.reservations)
  }

  /** The request finds its own row, or takes the key over, or makes a row. */
  ghost predicate Enters(st: Pool, su: Pool, cfg: Config, w: Wish, pin: Option<nat>, now: int, id: nat) {
    if KeyFree(st.leases, w.key) then InsertsRow(st, su, cfg, w, pin, now, id)
    else
      exists h :: KeyHolder(st.leases, w.key, h) &&
        if st.leases[h].token == w.token then su == st && id == h
        else
          Abandoned(st, st.leases[h], now) &&
          exists freed: Pool :: Superseded(st, freed, h, w.key) && InsertsRow(freed, su, cfg, w, pin, now, id)
  }

  /** The key is free, or its own, or abandoned, and a new row can be pinned. */
  predicate MayEnterQueue(st: Pool, w: Wish, pin: Option<nat>, now: int) {
    if KeyFree(st.leases, w.key) then Unclaimed(st.reservations, pin)
    else
      exists h :: h in st.leases && KeyHolder(st.leases, w.key, h) &&
        (st.leases[h].token == w.token || (Abandoned(st, st.leases[h], now) && Unclaimed(st.reservations, pin)))
  }

  lemma NewRowIs(st: Pool, cfg: Config, w: Wish, pin: Option<nat>, now: int)
    requires pin.Some? ==> pin.value in st.reservations
    ensures NewRow(st.reservations, cfg, w, pin, now, NewLease(st, cfg, w, pin, now))
  {
  }

  lemma InsertedIs(st: Pool, cfg: Config, w: Wish, pin: Option<nat>, now: int)
    requires pin.Some? ==> pin.value in st.reservations
    ensures
      var r := Inserted(st, cfg, w, pin, now);
      if Unclaimed(st.reservations, pin) then r.Some? && InsertsRow(st, r.value.0, cfg, w, pin, now, r.value.1)
      else r.None?
  {
    NewRowIs(st, cfg, w, pin, now);
    var l := NewLease(st, cfg, w, pin, now);
    assert l.req.pin == if pin.Some? then pin.value else 0;
    hide NewLease, NewRow, NextId;
  }

  lemma SupersededIs(st: Pool, h: nat, key: string)
    requires h in st.leases
    ensures Superseded(st, Supersede(st, h, Archived(key, h)), h, key)
  {
    hide RefreshSessions, Left, Vacant, Archived;
    var l := st.leases[h];
    var su := st.(leases := st.leases[h := l.(key := Archived(key, h), state := Expired, session := None, slot := 0)]);
    RestRows(su, l.session);
    if LeaseEnded(l) {
      NobodyLeft(st.sessions, Supersede(st, h, Archived(key, h)).leases);
    } else {
      assert Supersede(st, h, Archived(key, h)) == Rest(su, l.session);
    }
  }

  lemma NobodyLeft(ss: Sessions, ls: Leases)
    ensures forall s :: s in ss ==> Left(ss[s], false, Vacant(ls, s)) == ss[s]
  {
  }

  lemma HolderIs(ls: Leases, key: string)
    ensures WithKey(ls, key) == {} <==> KeyFree(ls, key)
    ensures WithKey(ls, key) != {} ==> KeyHolder(ls, key, Least(WithKey(ls, key)))
  {
    assert forall id :: id in ls && ls[id].key == key ==> id in WithKey(ls, key);
  }

  lemma OneHolder(ls: Leases, key: string, h: nat, k: nat)
    requires KeyHolder(ls, key, h) && KeyHolder(ls, key, k)
    ensures h == k
  {
  }

  lemma EnterIs(st: Pool, cfg: Config, w: Wish, pin: Option<nat>, now: int)
    requires pin.Some? ==> pin.value in st.reservations
    ensures
      var r := Enter(st, cfg, w, pin, now);
      if MayEnterQueue(st, w, pin, now) then r.Some? && Enters(st, r.value.0, cfg, w, pin, now, r.value.1) else r.None?
  {
    HolderIs(st.leases, w.key);
    hide WithKey, KeyFree, KeyHolder, Inserted, InsertsRow, Supersede, Superseded, Archived, Unclaimed;
    if KeyFree(st.leases, w.key) {
      InsertedIs(st, cfg, w, pin, now);
    } else {
      var h := Least(WithKey(st.leases, w.key));
      forall k | KeyHolder(st.leases, w.key, k)
        ensures k == h
      {
        OneHolder(st.leases, w.key, h, k);
      }
      assert h in st.leases by { HolderHere(st.leases, w.key, h); }
      assert Abandoned(st, st.leases[h], now) <==> Replaceable(st, st.leases[h], now);
      hide Abandoned, Replaceable;
      var freed := Supersede(st, h, Archived(w.key, h));
      SupersededIs(st, h, w.key);
      FreedReservations(st, freed, h, w.key);
      InsertedIs(freed, cfg, w, pin, now);
    }
  }

  lemma HolderHere(ls: Leases, key: string, h: nat)
    requires KeyHolder(ls, key, h)
    ensures h in ls
  {
  }

  lemma FreedReservations(st: Pool, freed: Pool, h: nat, key: string)
    requires h in st.leases && Superseded(st, freed, h, key)
    ensures freed.reservations == st.reservations
  {
  }

  // ----- the request -----

  /** The new row, or the one found, has its turn. */
  ghost predicate TurnIfPolling(st: Pool, su: Pool, cfg: Config, id: nat, now: int) {
    if cfg.operational && id in Polling(st, cfg, now) then Turn(st, su, cfg, id, now) else su == st
  }

  predicate Admissible(st: Pool, cfg: Config, w: Wish, now: int, pin: Option<nat>) {
    Authorises(st, cfg, w, now, pin) && MayEnterQueue(st, w, pin, now)
  }

  /** What an accepted request does to the refreshed tables. */
  ghost predicate Accepted(st: Pool, su: Pool, cfg: Config, w: Wish, now: int, pin: Option<nat>) {
    exists entered: Pool, id: nat :: Enters(st, entered, cfg, w, pin, now, id) && TurnIfPolling(entered, su, cfg, id, now)
  }

  /** The request is accepted with the pin that authorises it, if it may enter the queue; a
      refused one leaves the database as it was before the refresh. */
  ghost predicate Judged(before: Pool, st: Pool, su: Pool, cfg: Config, w: Wish, now: int) {
    if exists pin :: Admissible(st, cfg, w, now, pin)
    then exists pin :: Admissible(st, cfg, w, now, pin) && Accepted(st, su, cfg, w, now, pin)
    else su == before
  }

  lemma AcceptedIs(safe: set<string>, before: Pool, st: Pool, cfg: Config, w: Wish, now: int, pin: Option<nat>)
    requires Inv(safe, st) && Authorises(st, cfg, w, now, pin) && PinFor(st.reservations, w, pin)
    requires pin.Some? ==> pin.value in st.reservations
    ensures
      var su := Admit(before, Enter(st, cfg, w, pin, now), cfg, now);
      if MayEnterQueue(st, w, pin, now) then Accepted(st, su, cfg, w, now, pin) else su == before
  {
    hide Inv, Enter, Enters, MayEnterQueue, PlaceNamed, Polling, Turn, Authorises, PinFor, Kept;
    EnterIs(st, cfg, w, pin, now);
    EnterKept(safe, st, cfg, w, pin, now);
    var r := Enter(st, cfg, w, pin, now);
    if r.Some? {
      KeptInv(safe, cfg.target, NOTHING, st, r.value.0);
      PassOutcome(safe, r.value.0, cfg, now);
    }
  }

  lemma JudgedIs(safe: set<string>, before: Pool, st: Pool, cfg: Config, w: Wish, now: int)
    requires Inv(safe, st)
    ensures
      var su := match Authorize(st, cfg, w, now)
                case Denied => before
                case Unpinned => Admit(before, Enter(st, cfg, w, None, now), cfg, now)
                case Pinned(pin) => if pin in st.reservations then Admit(before, Enter(st, cfg, w, Some(pin), now), cfg, now)
                                    else before;
      Judged(before, st, su, cfg, w, now)
  {
    hide Inv, Authorises, MayEnterQueue, Enter, Admit, Accepted, Authorize;
    forall pin
      ensures Authorises(st, cfg, w, now, pin)
         <==> match Authorize(st, cfg, w, now)
              case Denied => false
              case Unpinned => pin.None?
              case Pinned(n) => pin == Some(n)
    {
      AuthorityIs(st, cfg, w, now, pin);
    }
    AuthorityFor(st, cfg, w, now);
    match Authorize(st, cfg, w, now)
    case Denied =>
    case Unpinned =>
      AcceptedIs(safe, before, st, cfg, w, now, None);
      assert MayEnterQueue(st, w, None, now) ==> Admissible(st, cfg, w, now, None);
    case Pinned(pin) =>
      AuthorisedHere(st, cfg, w, now, pin);
      AcceptedIs(safe, before, st, cfg, w, now, Some(pin));
      assert MayEnterQueue(st, w, Some(pin), now) ==> Admissible(st, cfg, w, now, Some(pin));
  }

  lemma AuthorisedHere(st: Pool, cfg: Config, w: Wish, now: int, pin: nat)
    requires Authorises(st, cfg, w, now, Some(pin))
    ensures pin in st.reservations
  {
  }

  /** A request past its deadline is refused; any other one is judged on the refreshed tables. */
  ghost predicate LeaseRequested(st: Pool, su: Pool, cfg: Config, w: Wish, now: int)
  {
    if w.deadline <= now then su == st
    else exists mid: Pool :: RefreshRuns(st, mid, now) && Judged(st, mid, su, cfg, w, now)
  }

  lemma RequestOutcome(safe: set<string>, st: Pool, cfg: Config, w: Wish, now: int)
    requires Inv(safe, st)
    ensures LeaseRequested(st, RequestLease(st, cfg, w, now), cfg, w, now)
  {
    hide Inv, Ebbs, RefreshReservations, RefreshRuns, Judged, Authorize, Enter, Admit;
    if now < w.deadline {
      var mid := RefreshReservations(st, now);
      RefreshOutcome(st, now);
      RefreshReservationsEbbs(safe, cfg.target, st, now);
      EbbsInv(safe, cfg.target, st, mid);
      JudgedIs(safe, st, mid, cfg, w, now);
    }
  }
}
