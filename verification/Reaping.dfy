/** What a reconcile pass does to leases whose client is gone: exactly, on rows. */
module PoolReaping {
  import opened PoolRows
  import opened PoolTerms
  import opened PoolInvariant
  import opened PoolRefresh
  import opened PoolClient
  import opened PoolReconcile

  /** The lease is not over, and nobody was asked to close its project. */
  predicate Unreleased(l: Lease) {
    l.state.Queued? || l.state.Offered? || l.state.Leased? || l.state.Attaching? || l.state.Active?
  }

  predicate Waits(l: Lease) {
    l.state.Queued? || l.state.Offered?
  }

  /** The task of the lease has ended. */
  predicate Orphaned(st: Pool, l: Lease) {
    Unreleased(l) && TaskEnded(st.tasks, l.req.task)
  }

  /** The offer was not acknowledged in its window, but the request still stands. */
  predicate Unanswered(l: Lease, now: int) {
    l.state.Offered? && l.req.protocol >= 2 && l.offerExpires < now && now < l.deadline && now < l.expires
  }

  /** A time of the lease has passed: its lifetime, the client's deadline while it waits,
      and for a protocol-1 client the poll of a queued lease and the window of an offer. */
  predicate PastTime(cfg: Config, l: Lease, now: int) {
    Unreleased(l) &&
    (|| l.expires < now
     || (Waits(l) && l.deadline < now)
     || (l.req.protocol < 2 && l.state.Queued? && l.heartbeat < now - 300)
     || (l.req.protocol < 2 && l.state.Queued? && l.heartbeat < now - cfg.leaseTtl)
     || (l.req.protocol < 2 && l.state.Offered? && l.offerExpires < now))
  }

  function Requeued(l: Lease): Lease { l.(state := Queued, session := None, slot := 0, permit := None) }
  function EndedAs(l: Lease, end: LeaseState): Lease { l.(state := end, session := None, slot := 0) }
  function Closes(l: Lease, now: int): Lease { l.(state := Releasing, releaseAt := Some(now)) }

  /** The lease after the pass looked at its client. */
  function Reaped(st: Pool, cfg: Config, l: Lease, now: int): Lease {
    if Orphaned(st, l) then (if l.state.Attaching? || l.state.Active? then Closes(l, now) else EndedAs(l, Cancelled))
    else if Unanswered(l, now) then Requeued(l)
    else if PastTime(cfg, l, now) then (if Waits(l) then EndedAs(l, Expired) else Closes(l, now))
    else l
  }

  // ----- one phase: some projects close, some leases end -----

  function Phase(st: Pool, closing: set<nat>, ending: set<nat>, end: LeaseState, now: int): Pool {
    var su := CloseProjects(BlockSessions(st, SessionsOf(st, closing), now), closing, now);
    RefreshSessions(CancelLeases(su, ending, end), SessionsOf(st, ending))
  }

  function AfterPhase(l: Lease, closes: bool, ends: bool, end: LeaseState, now: int): Lease {
    if closes then Closes(l, now) else if ends then EndedAs(l, end) else l
  }

  lemma PhaseLeases(st: Pool, closing: set<nat>, ending: set<nat>, end: LeaseState, now: int)
    requires closing !! ending
    ensures
      var su := Phase(st, closing, ending, end, now);
      && su == st.(leases := su.leases, sessions := su.sessions)
      && su.leases.Keys == st.leases.Keys && su.sessions.Keys == st.sessions.Keys
      && (forall id :: id in st.leases ==>
            su.leases[id] == AfterPhase(st.leases[id], id in closing, id in ending, end, now))
  {
    hide SessionsOf, Refreshed, Coalesce;
  }

  /** READY, BUSY or DRAINING after an owner left, and the seal of an empty batch off. */
  function Rested(x: Session, vacant: bool): Session {
    if x.state.Starting? || Works(x)
    then x.(state := if !vacant then Busy else if x.drainAt.Some? then Draining else Ready,
            isSealed := x.isSealed && !vacant)
    else x
  }

  predicate SessionOver(x: Session) { x.state.SessionClosed? || x.state.SessionFailed? }

  /** A Desktop that starts to close projects, and one that owners left. */
  function Touched(x: Session, closes: bool, leaves: bool, vacant: bool, now: int): Session {
    Left(BarrierUp(x, closes, now), leaves, vacant)
  }

  function BarrierUp(x: Session, closes: bool, now: int): Session {
    if closes && !SessionOver(x) then x.(blockedAt := Armed(x.blockedAt, now)) else x
  }

  function Left(x: Session, leaves: bool, vacant: bool): Session {
    if leaves then Rested(x, vacant) else x
  }

  /** Some lease on `s` turns from unreleased to releasing. */
  predicate ClosesOn(ls: Leases, ms: Leases, s: nat) {
    exists id :: id in ls && id in ms && ClosesHere(ls[id], ms[id], s)
  }

  predicate ClosesHere(l: Lease, m: Lease, s: nat) {
    l.session == Some(s) && Unreleased(l) && m.state.Releasing?
  }

  /** Some owner of `s` is no owner any more. */
  predicate LeavesFrom(ls: Leases, ms: Leases, s: nat) {
    exists id :: id in ls && id in ms && OwnsSlot(ls[id], s) && !OwnsSlot(ms[id], s)
  }

  predicate On(ls: Leases, ids: set<nat>, s: nat) {
    exists id :: id in ids && id in ls && ls[id].session == Some(s)
  }

  /** Only unreleased leases are listed, and a queued one is on no Desktop. */
  predicate Listed(ls: Leases, closing: set<nat>, ending: set<nat>) {
    && closing !! ending
    && (forall id :: id in ls && id in closing ==> Unreleased(ls[id]))
    && (forall id :: id in ls && id in ending ==> Unreleased(ls[id]) && (ls[id].state.Queued? ==> ls[id].session.None?))
  }

  lemma PhaseMoves(st: Pool, closing: set<nat>, ending: set<nat>, end: LeaseState, now: int, s: nat)
    requires Listed(st.leases, closing, ending) && (end.Cancelled? || end.Expired?)
    ensures
      var su := Phase(st, closing, ending, end, now);
      && (On(st.leases, closing, s) <==> ClosesOn(st.leases, su.leases, s))
      && (On(st.leases, ending, s) <==> LeavesFrom(st.leases, su.leases, s))
  {
    var su := Phase(st, closing, ending, end, now);
    PhaseLeases(st, closing, ending, end, now);
    hide Phase;
    forall id | id in st.leases && st.leases[id].session == Some(s)
      ensures id in closing <==> Unreleased(st.leases[id]) && su.leases[id].state.Releasing?
      ensures id in ending <==> OwnsSlot(st.leases[id], s) && !OwnsSlot(su.leases[id], s)
    {
    }
    hide Listed, AfterPhase, Unreleased;
  }

  lemma RestedIs(x: Session, vacant: bool)
    ensures Refreshed(x, vacant) == Rested(x, vacant)
  {
  }

  lemma PhaseRow(st: Pool, closing: set<nat>, ending: set<nat>, end: LeaseState, now: int, s: nat)
    requires s in st.sessions
    ensures
      var su := Phase(st, closing, ending, end, now);
      && s in su.sessions
      && su.sessions[s] == Touched(st.sessions[s], s in SessionsOf(st, closing), s in SessionsOf(st, ending),
                                   NoHolder(su.leases, s), now)
  {
    hide SessionsOf, Refreshed, NoHolder, Rested, CloseProjects, CancelLeases;
    var x := st.sessions[s];
    var su := Phase(st, closing, ending, end, now);
    RestedIs(x, NoHolder(su.leases, s));
    RestedIs(x.(blockedAt := Armed(x.blockedAt, now)), NoHolder(su.leases, s));
    PhaseTables(st, closing, ending, end, now);
  }

  /** The rows that the refresh of a phase reads. */
  lemma PhaseTables(st: Pool, closing: set<nat>, ending: set<nat>, end: LeaseState, now: int)
    ensures
      var su := CancelLeases(CloseProjects(BlockSessions(st, SessionsOf(st, closing), now), closing, now), ending, end);
      su.sessions == BlockSessions(st, SessionsOf(st, closing), now).sessions
      && su.leases == Phase(st, closing, ending, end, now).leases
  {
    hide SessionsOf, BlockSessions;
  }

  lemma ListedOn(st: Pool, ids: set<nat>, s: nat)
    requires s in st.sessions
    ensures s in SessionsOf(st, ids) <==> On(st.leases, ids, s)
  {
  }

  lemma PhaseSession(st: Pool, closing: set<nat>, ending: set<nat>, end: LeaseState, now: int, s: nat)
    requires Listed(st.leases, closing, ending) && (end.Cancelled? || end.Expired?) && s in st.sessions
    ensures
      var su := Phase(st, closing, ending, end, now);
      && s in su.sessions
      && su.sessions[s] == Touched(st.sessions[s], ClosesOn(st.leases, su.leases, s), LeavesFrom(st.leases, su.leases, s),
                                   Vacant(su.leases, s), now)
  {
    hide Phase, SessionsOf, On, ClosesOn, LeavesFrom, Vacant, NoHolder, Listed, Touched;
    PhaseMoves(st, closing, ending, end, now, s);
    SameOwners(Phase(st, closing, ending, end, now).leases, s);
    ListedOn(st, closing, s);
    ListedOn(st, ending, s);
    PhaseRow(st, closing, ending, end, now, s);
  }

  // ----- leases whose task has ended -----

  predicate ProjectOpen(l: Lease) { l.state.Attaching? || l.state.Active? }

  function OrphanOwners(st: Pool): set<nat> {
    set id | id in st.leases && Orphaned(st, st.leases[id]) && ProjectOpen(st.leases[id])
  }

  function OtherOrphans(st: Pool): set<nat> {
    set id | id in st.leases && Orphaned(st, st.leases[id]) && !ProjectOpen(st.leases[id])
  }

  lemma OrphansPhase(st: Pool, now: int)
    ensures EndOrphans(st, now) == Phase(st, OrphanOwners(st), OtherOrphans(st), Cancelled, now)
  {
    hide SessionsOf, RefreshSessions, BlockSessions, CloseProjects, CancelLeases, ClientOver, Orphaned;
    var over := set id | id in st.leases && ClientOver(st, st.leases[id]);
    var owners := set id | id in over && OwnsProject(st.leases[id]);
    OrphanSets(st);
    assert owners == OrphanOwners(st) && over - owners == OtherOrphans(st);
    assert EndOrphans(st, now) == Phase(st, owners, over - owners, Cancelled, now);
  }

  lemma OrphanSets(st: Pool)
    ensures
      var over := set id | id in st.leases && ClientOver(st, st.leases[id]);
      var owners := set id | id in over && OwnsProject(st.leases[id]);
      owners == OrphanOwners(st) && over - owners == OtherOrphans(st)
  {
    forall id | id in st.leases
      ensures ClientOver(st, st.leases[id]) <==> Orphaned(st, st.leases[id])
      ensures Orphaned(st, st.leases[id]) ==> (OwnsProject(st.leases[id]) <==> ProjectOpen(st.leases[id]))
    {
    }
    hide ClientOver, Orphaned, OwnsProject, ProjectOpen;
  }

  // ----- offers that nobody answered -----

  function Offers(st: Pool, now: int): set<nat> {
    set id | id in st.leases && Unanswered(st.leases[id], now)
  }

  lemma OffersPhase(st: Pool, now: int)
    ensures
      var ids := Offers(st, now);
      RequeueStale(st, now) == RefreshSessions(RequeueOffers(st, ids), SessionsOf(st, ids))
  {
    hide SessionsOf, RefreshSessions, RequeueOffers;
    assert StaleOffers(st, now) == Offers(st, now);
  }

  /** The reservation whose offer was taken back is claimed again. */
  function AfterOffer(st: Pool, r: Reservation, now: int): Reservation {
    if r.state.Consumed? && r.lease.Some? && r.lease.value in st.leases && Unanswered(st.leases[r.lease.value], now)
    then r.(state := Claimed) else r
  }

  lemma OffersReturn(st: Pool, now: int)
    ensures
      var su := RequeueStale(st, now);
      && su == st.(leases := su.leases, sessions := su.sessions, reservations := su.reservations)
      && su.leases.Keys == st.leases.Keys && su.sessions.Keys == st.sessions.Keys
      && su.reservations.Keys == st.reservations.Keys
      && (forall id :: id in st.leases ==>
            su.leases[id] == if Unanswered(st.leases[id], now) then Requeued(st.leases[id]) else st.leases[id])
      && (forall r :: r in st.reservations ==> su.reservations[r] == AfterOffer(st, st.reservations[r], now))
  {
    OffersPhase(st, now);
    hide SessionsOf, Refreshed, RequeueStale;
  }

  lemma OffersRow(st: Pool, now: int, s: nat)
    requires s in st.sessions
    ensures
      var su := RequeueStale(st, now);
      && s in su.sessions
      && su.sessions[s] == Touched(st.sessions[s], false, s in SessionsOf(st, Offers(st, now)), NoHolder(su.leases, s), now)
  {
    OffersPhase(st, now);
    hide SessionsOf, Refreshed, NoHolder, Rested, RequeueStale, Offers;
    RestedIs(st.sessions[s], NoHolder(RequeueStale(st, now).leases, s));
  }

  lemma OffersLeave(st: Pool, now: int, s: nat)
    ensures On(st.leases, Offers(st, now), s) <==> LeavesFrom(st.leases, RequeueStale(st, now).leases, s)
  {
    var su := RequeueStale(st, now);
    OffersReturn(st, now);
    hide RequeueStale;
    if On(st.leases, Offers(st, now), s) {
      var id :| id in Offers(st, now) && id in st.leases && st.leases[id].session == Some(s);
      assert OwnsSlot(st.leases[id], s) && !OwnsSlot(su.leases[id], s);
    }
  }

  lemma OffersSession(st: Pool, now: int, s: nat)
    requires s in st.sessions
    ensures
      var su := RequeueStale(st, now);
      && s in su.sessions
      && su.sessions[s] == Touched(st.sessions[s], false, LeavesFrom(st.leases, su.leases, s), Vacant(su.leases, s), now)
  {
    hide RequeueStale, SessionsOf, On, LeavesFrom, Vacant, NoHolder, Touched, Offers;
    OffersRow(st, now, s);
    OffersLeave(st, now, s);
    ListedOn(st, Offers(st, now), s);
    SameOwners(RequeueStale(st, now).leases, s);
  }

  // ----- leases past their time -----

  function PastWaiting(st: Pool, cfg: Config, now: int): set<nat> {
    set id | id in st.leases && PastTime(cfg, st.leases[id], now) && Waits(st.leases[id])
  }

  function PastClosing(st: Pool, cfg: Config, now: int): set<nat> {
    set id | id in st.leases && PastTime(cfg, st.leases[id], now) && !Waits(st.leases[id])
  }

  function PastSolving(st: Pool, cfg: Config, now: int): set<nat> {
    set id | id in st.leases && PastTime(cfg, st.leases[id], now) && st.leases[id].state.Active?
  }

  lemma LapsedIsPastTime(cfg: Config, l: Lease, now: int)
    ensures Lapsed(cfg, l, now) <==> PastTime(cfg, l, now)
  {
  }

  lemma LapsedSets(st: Pool, cfg: Config, now: int)
    ensures
      var lapsed := set id | id in st.leases && Lapsed(cfg, st.leases[id], now);
      var waiting := set id | id in lapsed && (st.leases[id].state.Queued? || st.leases[id].state.Offered?);
      var solving := set id | id in lapsed - waiting && st.leases[id].state.Active?;
      && waiting == PastWaiting(st, cfg, now) && lapsed - waiting == PastClosing(st, cfg, now)
      && solving == PastSolving(st, cfg, now)
  {
    forall id | id in st.leases
      ensures Lapsed(cfg, st.leases[id], now) <==> PastTime(cfg, st.leases[id], now)
    {
      LapsedIsPastTime(cfg, st.leases[id], now);
    }
    hide Lapsed, PastTime;
    var lapsed := set id | id in st.leases && Lapsed(cfg, st.leases[id], now);
    var waiting := set id | id in lapsed && (st.leases[id].state.Queued? || st.leases[id].state.Offered?);
    assert waiting == PastWaiting(st, cfg, now);
    assert lapsed - waiting == PastClosing(st, cfg, now);
    assert forall id :: id in PastSolving(st, cfg, now) ==> id in lapsed && id !in waiting;
  }

  lemma TimesPhase(st: Pool, cfg: Config, now: int)
    ensures
      ExpireLapsed(st, cfg, now)
      == QuarantineSessions(Phase(st, PastClosing(st, cfg, now), PastWaiting(st, cfg, now), Expired, now),
                            SessionsOf(st, PastSolving(st, cfg, now)), now)
  {
    hide SessionsOf, RefreshSessions, QuarantineSessions, BlockSessions, CloseProjects, CancelLeases, Lapsed, PastTime;
    LapsedSets(st, cfg, now);
    var lapsed := set id | id in st.leases && Lapsed(cfg, st.leases[id], now);
    var waiting := set id | id in lapsed && (st.leases[id].state.Queued? || st.leases[id].state.Offered?);
    var solving := set id | id in lapsed - waiting && st.leases[id].state.Active?;
    assert waiting == PastWaiting(st, cfg, now) && lapsed - waiting == PastClosing(st, cfg, now);
    assert solving == PastSolving(st, cfg, now);
    assert ExpireLapsed(st, cfg, now)
        == QuarantineSessions(Phase(st, lapsed - waiting, waiting, Expired, now), SessionsOf(st, solving), now);
  }

  /** An active client died on the Desktop. */
  function Suspected(x: Session, died: bool, now: int): Session {
    if died && (Works(x) || (x.state.Unhealthy? && x.fault.HeartbeatTimeout? && x.quarantine.NoQuarantine?))
    then x.(state := Draining, quarantine := OtherQuarantine, quarantineUntil := Armed(x.quarantineUntil, now + 900),
            fault := OtherFault, drainAt := Armed(x.drainAt, now))
    else x
  }

  lemma SuspectedRows(st: Pool, which: set<nat>, now: int)
    ensures
      var su := QuarantineSessions(st, which, now);
      && su == st.(sessions := su.sessions) && su.sessions.Keys == st.sessions.Keys
      && (forall s :: s in st.sessions ==> su.sessions[s] == Suspected(st.sessions[s], s in which, now))
  {
  }

  // ----- the three phases together -----

  /** An active client whose task goes on died on `s`. */
  predicate DiedOn(st: Pool, cfg: Config, s: nat, now: int) {
    exists id :: id in st.leases && st.leases[id].session == Some(s) && st.leases[id].state.Active?
      && PastTime(cfg, st.leases[id], now) && !Orphaned(st, st.leases[id])
  }

  /** The reservation of an offer that is taken back is claimed again. */
  function ReservationReaped(st: Pool, r: Reservation, now: int): Reservation {
    if r.state.Consumed? && r.lease.Some? && r.lease.value in st.leases
       && Unanswered(st.leases[r.lease.value], now) && !Orphaned(st, st.leases[r.lease.value])
    then r.(state := Claimed) else r
  }

  /** Every lease, reservation and Desktop after the pass looked at the clients. */
  ghost predicate ClientsReaped(st: Pool, su: Pool, cfg: Config, now: int) {
    && su == st.(leases := su.leases, sessions := su.sessions, reservations := su.reservations)
    && su.leases.Keys == st.leases.Keys && su.sessions.Keys == st.sessions.Keys
    && su.reservations.Keys == st.reservations.Keys
    && (forall id :: id in st.leases ==> su.leases[id] == Reaped(st, cfg, st.leases[id], now))
    && (forall r :: r in st.reservations ==> su.reservations[r] == ReservationReaped(st, st.reservations[r], now))
    && (forall s :: s in st.sessions ==>
          su.sessions[s] == Suspected(Touched(st.sessions[s], ClosesOn(st.leases, su.leases, s),
                                              LeavesFrom(st.leases, su.leases, s), Vacant(su.leases, s), now),
                                      DiedOn(st, cfg, s, now), now))
  }

  predicate QueuedNowhere(ls: Leases) {
    forall id :: id in ls && ls[id].state.Queued? ==> ls[id].session.None?
  }

  lemma QueuedRows(ss: Sessions, ls: Leases)
    requires LeaseRows(ss, ls)
    ensures QueuedNowhere(ls)
  {
    forall id | id in ls && ls[id].state.Queued?
      ensures ls[id].session.None?
    {
      assert LeaseRow(ss, ls[id]);
    }
  }

  function AfterOrphans(st: Pool, l: Lease, now: int): Lease {
    AfterPhase(l, Orphaned(st, l) && ProjectOpen(l), Orphaned(st, l) && !ProjectOpen(l), Cancelled, now)
  }

  lemma OrphansEnd(st: Pool, now: int)
    ensures
      var su := EndOrphans(st, now);
      && su == st.(leases := su.leases, sessions := su.sessions)
      && su.leases.Keys == st.leases.Keys && su.sessions.Keys == st.sessions.Keys
      && (forall id :: id in st.leases ==> su.leases[id] == AfterOrphans(st, st.leases[id], now))
  {
    hide EndOrphans, Phase, AfterPhase, Orphaned, ProjectOpen;
    OrphansPhase(st, now);
    PhaseLeases(st, OrphanOwners(st), OtherOrphans(st), Cancelled, now);
  }

  lemma OrphansSession(st: Pool, now: int, s: nat)
    requires QueuedNowhere(st.leases) && s in st.sessions
    ensures
      var su := EndOrphans(st, now);
      && s in su.sessions
      && su.sessions[s] == Touched(st.sessions[s], ClosesOn(st.leases, su.leases, s), LeavesFrom(st.leases, su.leases, s),
                                   Vacant(su.leases, s), now)
  {
    hide EndOrphans, Phase, ClosesOn, LeavesFrom, Vacant, Touched;
    OrphansPhase(st, now);
    PhaseSession(st, OrphanOwners(st), OtherOrphans(st), Cancelled, now, s);
  }

  function AfterTimes(cfg: Config, l: Lease, now: int): Lease {
    AfterPhase(l, PastTime(cfg, l, now) && !Waits(l), PastTime(cfg, l, now) && Waits(l), Expired, now)
  }

  lemma TimesPass(st: Pool, cfg: Config, now: int)
    ensures
      var su := ExpireLapsed(st, cfg, now);
      && su == st.(leases := su.leases, sessions := su.sessions)
      && su.leases.Keys == st.leases.Keys && su.sessions.Keys == st.sessions.Keys
      && (forall id :: id in st.leases ==> su.leases[id] == AfterTimes(cfg, st.leases[id], now))
  {
    hide ExpireLapsed, Phase, AfterPhase, PastTime, Waits, QuarantineSessions, SessionsOf, Suspected;
    TimesPhase(st, cfg, now);
    var mid := Phase(st, PastClosing(st, cfg, now), PastWaiting(st, cfg, now), Expired, now);
    PhaseLeases(st, PastClosing(st, cfg, now), PastWaiting(st, cfg, now), Expired, now);
    SuspectedRows(mid, SessionsOf(st, PastSolving(st, cfg, now)), now);
  }

  lemma TimesSession(st: Pool, cfg: Config, now: int, s: nat)
    requires QueuedNowhere(st.leases) && s in st.sessions
    ensures
      var su := ExpireLapsed(st, cfg, now);
      && s in su.sessions
      && su.sessions[s] == Suspected(Touched(st.sessions[s], ClosesOn(st.leases, su.leases, s),
                                             LeavesFrom(st.leases, su.leases, s), Vacant(su.leases, s), now),
                                     On(st.leases, PastSolving(st, cfg, now), s), now)
  {
    hide ExpireLapsed, Phase, ClosesOn, LeavesFrom, Vacant, Touched, Suspected, QuarantineSessions, SessionsOf, On, PastSolving, PastTime;
    TimesPhase(st, cfg, now);
    var mid := Phase(st, PastClosing(st, cfg, now), PastWaiting(st, cfg, now), Expired, now);
    assert Listed(st.leases, PastClosing(st, cfg, now), PastWaiting(st, cfg, now)) by { PastListed(st, cfg, now); }
    hide PastClosing, PastWaiting, Listed;
    PhaseSession(st, PastClosing(st, cfg, now), PastWaiting(st, cfg, now), Expired, now, s);
    SuspectedRows(mid, SessionsOf(st, PastSolving(st, cfg, now)), now);
    ListedOn(st, PastSolving(st, cfg, now), s);
  }

  lemma PastListed(st: Pool, cfg: Config, now: int)
    requires QueuedNowhere(st.leases)
    ensures Listed(st.leases, PastClosing(st, cfg, now), PastWaiting(st, cfg, now))
  {
  }

  // one lease

  lemma LeaseReaped(st: Pool, cfg: Config, l: Lease, now: int)
    ensures
      var a := AfterOrphans(st, l, now);
      var b := if Unanswered(a, now) then Requeued(a) else a;
      && AfterTimes(cfg, b, now) == Reaped(st, cfg, l, now)
      && (Unanswered(a, now) <==> Unanswered(l, now) && !Orphaned(st, l))
      && (b.state.Active? && PastTime(cfg, b, now) <==> l.state.Active? && PastTime(cfg, l, now) && !Orphaned(st, l))
      && (b.state.Active? ==> b.session == l.session)
  {
  }

  /** Where the lease is, phase by phase. */
  lemma LeaseMoves(st: Pool, cfg: Config, l: Lease, now: int, s: nat)
    ensures
      var a := AfterOrphans(st, l, now);
      var b := if Unanswered(a, now) then Requeued(a) else a;
      var c := AfterTimes(cfg, b, now);
      && (OwnsSlot(c, s) ==> OwnsSlot(b, s)) && (OwnsSlot(b, s) ==> OwnsSlot(a, s)) && (OwnsSlot(a, s) ==> OwnsSlot(l, s))
      && ((l.session == Some(s) && Unreleased(l) && c.state.Releasing?)
          <==> (l.session == Some(s) && Unreleased(l) && a.state.Releasing?)
               || (b.session == Some(s) && Unreleased(b) && c.state.Releasing?))
      && !(a.session == Some(s) && Unreleased(a) && b.state.Releasing?)
  {
  }

  // one Desktop

  lemma LeftBarrierUp(x: Session, closes: bool, leaves: bool, vacant: bool, now: int)
    ensures BarrierUp(Left(x, leaves, vacant), closes, now) == Left(BarrierUp(x, closes, now), leaves, vacant)
  {
  }

  lemma BarrierTwice(x: Session, c: bool, c': bool, now: int)
    ensures BarrierUp(BarrierUp(x, c, now), c', now) == BarrierUp(x, c || c', now)
  {
  }

  lemma LeftTwice(x: Session, l: bool, v: bool, l': bool, v': bool)
    requires (l' ==> !v) && (!l' ==> v' == v)
    ensures Left(Left(x, l, v), l', v') == Left(x, l || l', v')
  {
  }

  lemma TouchTwice(x: Session, c: bool, l: bool, v: bool, c': bool, l': bool, v': bool, now: int)
    requires (l' ==> !v) && (!l' ==> v' == v)
    ensures Touched(Touched(x, c, l, v, now), c', l', v', now) == Touched(x, c || c', l || l', v', now)
  {
    hide BarrierUp, Left;
    LeftBarrierUp(BarrierUp(x, c, now), c', l, v, now);
    BarrierTwice(x, c, c', now);
    LeftTwice(BarrierUp(x, c || c', now), l, v, l', v');
  }

  /** Nobody enters `s`; if nobody leaves it either, it is as vacant as before. */
  predicate NobodyEnters(ls: Leases, ms: Leases, s: nat) {
    ls.Keys == ms.Keys && forall id :: id in ls && OwnsSlot(ms[id], s) ==> OwnsSlot(ls[id], s)
  }

  lemma VacancySame(ls: Leases, ms: Leases, s: nat)
    requires NobodyEnters(ls, ms, s)
    ensures LeavesFrom(ls, ms, s) ==> !Vacant(ls, s)
    ensures !LeavesFrom(ls, ms, s) ==> (Vacant(ms, s) <==> Vacant(ls, s))
  {
    if !LeavesFrom(ls, ms, s) && Vacant(ms, s) {
      forall id | id in ls
        ensures !OwnsSlot(ls[id], s)
      {
        assert !OwnsSlot(ms[id], s);
      }
    }
  }

  lemma LeavesTwice(ls: Leases, ms: Leases, ns: Leases, s: nat)
    requires NobodyEnters(ls, ms, s) && NobodyEnters(ms, ns, s)
    ensures LeavesFrom(ls, ns, s) <==> LeavesFrom(ls, ms, s) || LeavesFrom(ms, ns, s)
  {
    if LeavesFrom(ls, ms, s) {
      var id :| id in ls && OwnsSlot(ls[id], s) && !OwnsSlot(ms[id], s);
      assert !OwnsSlot(ns[id], s);
    }
    if LeavesFrom(ms, ns, s) {
      var id :| id in ms && OwnsSlot(ms[id], s) && !OwnsSlot(ns[id], s);
      assert OwnsSlot(ls[id], s);
    }
  }

  /** The lease tables between the phases. */
  ghost predicate Phased(st: Pool, cfg: Config, ls: Leases, ms: Leases, ns: Leases, now: int) {
    && ls.Keys == st.leases.Keys && ms.Keys == st.leases.Keys && ns.Keys == st.leases.Keys
    && (forall id :: id in st.leases ==> ls[id] == AfterOrphans(st, st.leases[id], now))
    && (forall id :: id in st.leases ==> ms[id] == if Unanswered(ls[id], now) then Requeued(ls[id]) else ls[id])
    && (forall id :: id in st.leases ==> ns[id] == AfterTimes(cfg, ms[id], now))
  }

  lemma PhasesRun(st: Pool, cfg: Config, now: int)
    ensures
      var s1 := EndOrphans(st, now);
      var s2 := RequeueStale(s1, now);
      Phased(st, cfg, s1.leases, s2.leases, ExpireLapsed(s2, cfg, now).leases, now)
  {
    hide EndOrphans, RequeueStale, ExpireLapsed, AfterOrphans, AfterTimes, Unanswered, Requeued;
    OrphansEnd(st, now);
    OffersReturn(EndOrphans(st, now), now);
    TimesPass(RequeueStale(EndOrphans(st, now), now), cfg, now);
  }

  lemma PhasesEnter(st: Pool, cfg: Config, ls: Leases, ms: Leases, ns: Leases, now: int, s: nat)
    requires Phased(st, cfg, ls, ms, ns, now)
    ensures NobodyEnters(st.leases, ls, s) && NobodyEnters(ls, ms, s) && NobodyEnters(ms, ns, s)
    ensures ClosesOn(st.leases, ns, s) <==> ClosesOn(st.leases, ls, s) || ClosesOn(ms, ns, s)
    ensures !ClosesOn(ls, ms, s)
  {
    forall id | id in st.leases
      ensures OwnsSlot(ns[id], s) ==> OwnsSlot(ms[id], s)
      ensures OwnsSlot(ms[id], s) ==> OwnsSlot(ls[id], s)
      ensures OwnsSlot(ls[id], s) ==> OwnsSlot(st.leases[id], s)
      ensures ClosesHere(st.leases[id], ns[id], s) <==> ClosesHere(st.leases[id], ls[id], s) || ClosesHere(ms[id], ns[id], s)
      ensures !ClosesHere(ls[id], ms[id], s)
    {
      hide AfterOrphans, AfterTimes, Requeued, Unanswered, OwnsSlot;
      LeaseMoves(st, cfg, st.leases[id], now, s);
    }
    hide Phased, OwnsSlot, ClosesHere;
  }

  lemma PhasesDied(st: Pool, cfg: Config, ls: Leases, mid: Pool, ns: Leases, now: int, s: nat)
    requires Phased(st, cfg, ls, mid.leases, ns, now)
    ensures DiedOn(st, cfg, s, now) <==> On(mid.leases, PastSolving(mid, cfg, now), s)
  {
    forall id | id in st.leases
      ensures mid.leases[id].session == Some(s) && mid.leases[id].state.Active? && PastTime(cfg, mid.leases[id], now)
         <==> st.leases[id].session == Some(s) && st.leases[id].state.Active? && PastTime(cfg, st.leases[id], now)
              && !Orphaned(st, st.leases[id])
    {
      hide AfterOrphans, AfterTimes, Requeued, Unanswered, PastTime, Orphaned;
      LeaseReaped(st, cfg, st.leases[id], now);
    }
    assert mid.leases.Keys == st.leases.Keys;
    hide Phased, PastTime, Orphaned;
  }

  // ----- the outcome -----

  lemma QueuedAfterPhases(st: Pool, cfg: Config, ls: Leases, ms: Leases, ns: Leases, now: int)
    requires Phased(st, cfg, ls, ms, ns, now) && QueuedNowhere(st.leases)
    ensures QueuedNowhere(ls) && QueuedNowhere(ms)
  {
    forall id | id in st.leases
      ensures ls[id].state.Queued? ==> ls[id].session.None?
      ensures ms[id].state.Queued? ==> ms[id].session.None?
    {
    }
  }

  lemma SessionsReaped(st: Pool, cfg: Config, now: int, s: nat)
    requires QueuedNowhere(st.leases) && s in st.sessions
    ensures
      var su := ReapLeases(st, cfg, now);
      && s in su.sessions
      && su.sessions[s] == Suspected(Touched(st.sessions[s], ClosesOn(st.leases, su.leases, s),
                                             LeavesFrom(st.leases, su.leases, s), Vacant(su.leases, s), now),
                                     DiedOn(st, cfg, s, now), now)
  {
    var s1 := EndOrphans(st, now);
    var s2 := RequeueStale(s1, now);
    var su := ExpireLapsed(s2, cfg, now);
    hide EndOrphans, RequeueStale, ExpireLapsed, Phased, Touched, Suspected, ClosesOn, LeavesFrom, Vacant, DiedOn, On, PastSolving;
    PhasesRun(st, cfg, now);
    QueuedAfterPhases(st, cfg, s1.leases, s2.leases, su.leases, now);
    hide QueuedNowhere;
    PhasesEnter(st, cfg, s1.leases, s2.leases, su.leases, now, s);
    PhasesDied(st, cfg, s1.leases, s2, su.leases, now, s);
    OrphansSession(st, now, s);
    OffersSession(s1, now, s);
    TimesSession(s2, cfg, now, s);
    VacancySame(s1.leases, s2.leases, s);
    VacancySame(s2.leases, su.leases, s);
    LeavesTwice(st.leases, s1.leases, s2.leases, s);
    EntersTwice(st.leases, s1.leases, s2.leases, s);
    LeavesTwice(st.leases, s2.leases, su.leases, s);
    hide NobodyEnters;
    var x := st.sessions[s];
    var c1, l1, v1 := ClosesOn(st.leases, s1.leases, s), LeavesFrom(st.leases, s1.leases, s), Vacant(s1.leases, s);
    var l2, v2 := LeavesFrom(s1.leases, s2.leases, s), Vacant(s2.leases, s);
    var c3, l3, v3 := ClosesOn(s2.leases, su.leases, s), LeavesFrom(s2.leases, su.leases, s), Vacant(su.leases, s);
    TouchTwice(x, c1, l1, v1, false, l2, v2, now);
    TouchTwice(x, c1, l1 || l2, v2, c3, l3, v3, now);
  }

  lemma EntersTwice(ls: Leases, ms: Leases, ns: Leases, s: nat)
    requires NobodyEnters(ls, ms, s) && NobodyEnters(ms, ns, s)
    ensures NobodyEnters(ls, ns, s)
  {
  }

  lemma RowsReaped(st: Pool, cfg: Config, now: int)
    ensures
      var su := ReapLeases(st, cfg, now);
      && su == st.(leases := su.leases, sessions := su.sessions, reservations := su.reservations)
      && su.leases.Keys == st.leases.Keys && su.sessions.Keys == st.sessions.Keys
      && su.reservations.Keys == st.reservations.Keys
      && (forall id :: id in st.leases ==> su.leases[id] == Reaped(st, cfg, st.leases[id], now))
      && (forall r :: r in st.reservations ==> su.reservations[r] == ReservationReaped(st, st.reservations[r], now))
  {
    var s1 := EndOrphans(st, now);
    var s2 := RequeueStale(s1, now);
    hide EndOrphans, RequeueStale, ExpireLapsed, Reaped, AfterOrphans, AfterTimes, Unanswered, Requeued, Orphaned;
    OrphansEnd(st, now);
    OffersReturn(s1, now);
    TimesPass(s2, cfg, now);
    forall id | id in st.leases
      ensures ExpireLapsed(s2, cfg, now).leases[id] == Reaped(st, cfg, st.leases[id], now)
      ensures Unanswered(s1.leases[id], now) <==> Unanswered(st.leases[id], now) && !Orphaned(st, st.leases[id])
    {
      LeaseReaped(st, cfg, st.leases[id], now);
    }
  }

  /** The reaping phase of a pass, with no row left out: an ended task's lease releases its
      open project or is cancelled; an unanswered offer waits again; a lease past one of its
      times expires if it waits, and releases its project otherwise; every other lease is
      untouched. A Desktop is barred exactly when a lease on it starts to release, drains in
      quarantine exactly when an active client died on it, and rests when owners left it. */
  lemma ClientsAreReaped(safe: set<string>, st: Pool, cfg: Config, now: int)
    requires Inv(safe, st)
    ensures ClientsReaped(st, ReapLeases(st, cfg, now), cfg, now)
  {
    assert QueuedNowhere(st.leases) by { QueuedRows(st.sessions, st.leases); }
    hide Inv, QueuedNowhere, ReapLeases, Reaped, ReservationReaped, Touched, Suspected, ClosesOn, LeavesFrom, Vacant, DiedOn;
    RowsReaped(st, cfg, now);
    forall s | s in st.sessions
      ensures
        var su := ReapLeases(st, cfg, now);
        && s in su.sessions
        && su.sessions[s] == Suspected(Touched(st.sessions[s], ClosesOn(st.leases, su.leases, s),
                                               LeavesFrom(st.leases, su.leases, s), Vacant(su.leases, s), now),
                                       DiedOn(st, cfg, s, now), now)
    {
      SessionsReaped(st, cfg, now, s);
    }
  }

  /** An active lease whose client stopped beating: its project is closed on a Desktop behind an
      armed barrier, which stops taking work and is quarantined. */
  lemma DeadClient(safe: set<string>, st: Pool, cfg: Config, now: int, id: nat)
    requires Inv(safe, st) && id in st.leases && st.leases[id].state.Active? && st.leases[id].expires < now
    requires !TaskEnded(st.tasks, st.leases[id].req.task)
    ensures
      var su := ReapLeases(st, cfg, now);
      && id in su.leases && su.leases[id].state.Releasing? && su.leases[id].releaseAt == Some(now)
      && st.leases[id].session.Some? && st.leases[id].session.value in st.sessions
      && var s := st.leases[id].session.value;
         && s in su.sessions && su.leases[id].session == Some(s) && su.sessions[s].blockedAt.Some?
         && (Works(st.sessions[s]) ==> su.sessions[s].state.Draining? && su.sessions[s].quarantine.OtherQuarantine?)
  {
    hide Inv, ReapLeases, ClientsReaped;
    ActiveSeat(safe, st, id);
    ClientsAreReaped(safe, st, cfg, now);
    DeadClientRows(st, ReapLeases(st, cfg, now), cfg, now, id);
  }

  lemma DeadClientRows(st: Pool, su: Pool, cfg: Config, now: int, id: nat)
    requires ClientsReaped(st, su, cfg, now)
    requires id in st.leases && st.leases[id].state.Active? && st.leases[id].expires < now
    requires !TaskEnded(st.tasks, st.leases[id].req.task)
    requires st.leases[id].session.Some? && st.leases[id].session.value in st.sessions
    requires !SessionOver(st.sessions[st.leases[id].session.value])
    ensures id in su.leases && su.leases[id] == Closes(st.leases[id], now)
    ensures
      var s := st.leases[id].session.value;
      && s in su.sessions && su.sessions[s].blockedAt.Some?
      && (Works(st.sessions[s]) ==> su.sessions[s].state.Draining? && su.sessions[s].quarantine.OtherQuarantine?)
  {
    var s := st.leases[id].session.value;
    hide ClientsReaped, Reaped, Suspected, Touched, LeavesFrom, PastTime, Orphaned;
    ReapedRows(st, su, cfg, now, id, s);
    ReapedActive(st, cfg, st.leases[id], now);
    assert ClosesHere(st.leases[id], su.leases[id], s);
    assert ClosesOn(st.leases, su.leases, s) && DiedOn(st, cfg, s, now);
    assert OwnsSlot(su.leases[id], s);
    assert !Vacant(su.leases, s);
    hide ClosesOn, DiedOn, ClosesHere, Vacant, OwnsSlot;
    DeadDesktop(st.sessions[s], LeavesFrom(st.leases, su.leases, s), now);
  }

  lemma ReapedRows(st: Pool, su: Pool, cfg: Config, now: int, id: nat, s: nat)
    requires ClientsReaped(st, su, cfg, now) && id in st.leases && s in st.sessions
    ensures id in su.leases && su.leases[id] == Reaped(st, cfg, st.leases[id], now)
    ensures s in su.sessions
    ensures su.sessions[s] == Suspected(Touched(st.sessions[s], ClosesOn(st.leases, su.leases, s),
                                                LeavesFrom(st.leases, su.leases, s), Vacant(su.leases, s), now),
                                        DiedOn(st, cfg, s, now), now)
  {
    hide Reaped, Suspected, Touched, ClosesOn, LeavesFrom, Vacant, DiedOn;
  }

  lemma ReapedActive(st: Pool, cfg: Config, l: Lease, now: int)
    requires l.state.Active? && l.expires < now && !TaskEnded(st.tasks, l.req.task)
    ensures Reaped(st, cfg, l, now) == Closes(l, now) && PastTime(cfg, l, now) && !Orphaned(st, l)
  {
  }

  lemma DeadDesktop(x: Session, leaves: bool, now: int)
    requires !SessionOver(x)
    ensures
      var y := Suspected(Touched(x, true, leaves, false, now), true, now);
      y.blockedAt.Some? && (Works(x) ==> y.state.Draining? && y.quarantine.OtherQuarantine?)
  {
  }

  lemma ActiveSeat(safe: set<string>, st: Pool, id: nat)
    requires Inv(safe, st) && id in st.leases && st.leases[id].state.Active?
    ensures st.leases[id].session.Some? && st.leases[id].session.value in st.sessions
    ensures !SessionOver(st.sessions[st.leases[id].session.value])
  {
    assert LeaseRow(st.sessions, st.leases[id]);
  }
}
