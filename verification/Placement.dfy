/** Placement of queued leases on Desktops. */
module PoolPlacement {
  import opened PoolRows
  import opened PoolCalm
  import opened PoolRefresh

  // ----- does a lease fit a Desktop? -----

  /** Reservations of other cohort members or strangers that hold a slot of `s`. */
  function HeldByOthers(rs: Reservations, s: nat, pin: nat): set<nat> {
    set r | r in rs && rs[r].session == s && rs[r].state.Held() && r != pin
  }

  /** Of those, the ones whose sharing contract must be compared: a pinned lease
      trusts the reservations of its own cohort. */
  function ForeignHolds(rs: Reservations, s: nat, pin: nat): set<nat> {
    set r | r in HeldByOthers(rs, s, pin) && !(pin in rs && rs[pin].key == rs[r].key)
  }

  predicate OwnersCompatible(q: Request, ls: Leases, s: nat) {
    forall o :: o in ls && Holder(ls[o], s) ==>
      && !ls[o].req.exclusive && !q.exclusive
      && (if q.protocol < 2 then ls[o].req.protocol < 2 && ls[o].req.group == q.group
          else
            && ls[o].req.protocol >= 2 && ls[o].req.profile == q.profile
            && match q.policy
               case Family => ls[o].req.policy.Family? && ls[o].req.family == q.family
               case SharedIfCompatible => ls[o].req.policy.SharedIfCompatible?
               case Exclusive => false)
  }

  predicate HoldsCompatible(q: Request, rs: Reservations, s: nat) {
    forall r :: r in ForeignHolds(rs, s, q.pin) ==>
      && q.protocol >= 2
      && rs[r].family != "" && rs[r].policy.Some? && rs[r].profile == q.profile
      && match q.policy
         case Family => rs[r].policy == Some(Family) && rs[r].family == q.family
         case SharedIfCompatible => rs[r].policy == Some(SharedIfCompatible)
         case Exclusive => false
  }

  predicate LeaseFits(st: Pool, id: nat, s: nat)
    requires id in st.leases && s in st.sessions
  {
    var q := st.leases[id].req;
    var x := st.sessions[s];
    && |Holders(st.leases, s)| + |HeldByOthers(st.reservations, s, q.pin)| < x.slots
    && x.blockedAt.None?
    && (q.pinSession != 0 ==> s == q.pinSession && x.generation == q.pinGeneration)
    && (q.protocol >= 2 ==> x.profile == q.profile)
    && OwnersCompatible(q, st.leases, s)
    && HoldsCompatible(q, st.reservations, s)
  }

  /** The pin of the lease still waits for it. */
  predicate PinClaimed(st: Pool, id: nat)
    requires id in st.leases
  {
    var pin := st.leases[id].req.pin;
    pin != 0 ==> pin in st.reservations && st.reservations[pin].state.Claimed?
                 && st.reservations[pin].lease == Some(id)
  }

  /** The Desktop is offered by the placement query. A requested drain is not tested here. */
  predicate Selectable(st: Pool, cfg: Config, id: nat, s: nat, now: int)
    requires id in st.leases && s in st.sessions
  {
    var l := st.leases[id];
    var x := st.sessions[s];
    && x.state.Assignable() && x.heartbeat.Some? && x.heartbeat.value >= now - cfg.sessionTimeout
    && !x.isSealed && x.blockedAt.None?
    && x.allocation in st.allocations && st.allocations[x.allocation].Usable()
    && (cfg.allocationMaxAge == 0 || st.allocations[x.allocation].created > now - cfg.allocationMaxAge)
    && (l.wantAllocation == 0 || x.allocation == l.wantAllocation)
    && (l.wantNode == "" || x.node == l.wantNode)
  }

  function FittingSessions(st: Pool, cfg: Config, id: nat, now: int): set<nat>
    requires id in st.leases
  {
    set s | s in st.sessions && Selectable(st, cfg, id, s, now) && PinClaimed(st, id) && LeaseFits(st, id, s)
  }

  /** `s` comes before `t` in the placement order: fuller first, then older. */
  predicate Before(ls: Leases, s: nat, t: nat) {
    |Holders(ls, t)| < |Holders(ls, s)| || (|Holders(ls, t)| == |Holders(ls, s)| && s <= t)
  }

  lemma FirstExists(ls: Leases, fits: set<nat>) returns (best: nat)
    requires fits != {}
    ensures best in fits && forall t :: t in fits ==> Before(ls, best, t)
  {
    var s :| s in fits;
    if fits == {s} {
      best := s;
    } else {
      var rest := FirstExists(ls, fits - {s});
      best := if Before(ls, s, rest) then s else rest;
      forall t | t in fits
        ensures Before(ls, best, t)
      {
        assert t == s || t in fits - {s};
      }
    }
  }

  /** The first fitting Desktop in the placement order. */
  function First(ls: Leases, fits: set<nat>): (best: nat)
    requires fits != {}
    ensures best in fits && forall t :: t in fits ==> Before(ls, best, t)
  {
    assert exists s :: s in fits && forall t :: t in fits ==> Before(ls, s, t) by {
      var best := FirstExists(ls, fits);
    }
    var s :| s in fits && forall t :: t in fits ==> Before(ls, s, t);
    s
  }

  // ----- seating one lease -----

  function OccupiedSlots(ls: Leases, s: nat): set<nat> {
    set id | id in ls && Holder(ls[id], s) :: ls[id].slot
  }

  /** The least index from `from` on that is not occupied. */
  function FreeIndex(occupied: set<nat>, from: nat): (index: nat)
    ensures index >= from && index !in occupied
    ensures forall i :: from <= i < index ==> i in occupied
    decreases occupied
  {
    if from in occupied then
      var index := FreeIndex(occupied - {from}, from + 1);
      index
    else from
  }

  function Seat(st: Pool, cfg: Config, id: nat, s: nat, now: int): Pool
    requires id in st.leases && s in st.sessions
  {
    var l := st.leases[id];
    var x := st.sessions[s];
    var seated := l.(session := Some(s), slot := FreeIndex(OccupiedSlots(st.leases, s), 0),
                     state := if l.req.protocol >= 2 then Offered else Leased,
                     offerExpires := now + cfg.offerAck);
    st.(leases := st.leases[id := seated],
        reservations := if l.req.pin != 0 && l.req.pin in st.reservations
                        then st.reservations[l.req.pin := st.reservations[l.req.pin].(state := Consumed)]
                        else st.reservations,
        sessions := if x.profile == "" then st.sessions[s := x.(profile := l.req.profile)] else st.sessions)
  }

  /** Admissions that would remain without the candidate, its task and its pin. */
  function AdmittedWithout(st: Pool, id: nat): set<Admission>
    requires id in st.leases
  {
    var q := st.leases[id].req;
    (set i | i in st.leases && st.leases[i].state.Holds() && i != id
             && (q.task == 0 || st.leases[i].req.task != q.task) :: AdmissionKey(i, st.leases[i]))
    + (set r | r in st.reservations && st.reservations[r].state.Held() && (q.pin == 0 || r != q.pin)
               && (q.task == 0 || st.reservations[r].task != q.task) :: ForTask(st.reservations[r].task))
  }

  predicate MayPlace(st: Pool, cfg: Config, id: nat, now: int)
    requires id in st.leases
  {
    && st.leases[id].state.Queued? && st.leases[id].deadline > now
    && !(st.leases[id].req.task != 0 && TaskOver(st.tasks, st.leases[id].req.task))
    && cfg.target > 0 && |AdmittedWithout(st, id)| < cfg.target
  }

  function PlaceOne(st: Pool, cfg: Config, id: nat, now: int): Pool {
    if id in st.leases && MayPlace(st, cfg, id, now) && FittingSessions(st, cfg, id, now) != {} then
      var s := First(st.leases, FittingSessions(st, cfg, id, now));
      RefreshSessions(Seat(st, cfg, id, s, now), {s})
    else st
  }

  function PlaceEach(st: Pool, cfg: Config, ids: seq<nat>, now: int): Pool
    decreases |ids|
  {
    if ids == [] then st else PlaceEach(PlaceOne(st, cfg, ids[0], now), cfg, ids[1..], now)
  }
}
