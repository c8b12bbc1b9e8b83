/** Sealing one Desktop's batch and granting its native solve waves. */
module PoolSolve {
  import opened PoolRows
  import opened PoolCalm
  import opened PoolRefresh

  /** Every live reservation on `s` is consumed by a lease active there. */
  predicate ReservationsActive(st: Pool, s: nat) {
    forall r :: r in st.reservations && LiveOn(st.reservations[r], s) ==>
      && st.reservations[r].state.Consumed?
      && st.reservations[r].lease.Some? && st.reservations[r].lease.value in st.leases
      && var l := st.leases[st.reservations[r].lease.value];
         l.session == Some(s) && l.state.Active?
  }

  /** An unsealed batch may start: all owners active, and it is full, exclusive or
      explicitly allowed to be underfilled. */
  predicate MaySeal(st: Pool, s: nat, underfilled: bool)
    requires s in st.sessions
  {
    && ReservationsActive(st, s)
    && Holders(st.leases, s) != {}
    && (forall id :: id in st.leases && Holder(st.leases[id], s) ==> st.leases[id].state.Active?)
    && (underfilled
        || |Holders(st.leases, s)| >= (if st.sessions[s].slots == 0 then 1 else st.sessions[s].slots)
        || exists id :: id in st.leases && Holder(st.leases[id], s) && st.leases[id].req.exclusive)
  }

  /** The lease finished its wave as the next wave demands: project closed by the
      host, and a completion marker for exactly this Desktop and wave. */
  predicate Finished(l: Lease, s: nat, wave: nat) {
    l.state.Released? && l.marker == Some(Marker(s, wave))
  }

  predicate WaveOver(ls: Leases, s: nat, wave: nat) {
    Wave(ls, s, wave) != {} && forall id :: id in ls && InWave(ls[id], s, wave) ==> ls[id].state.Terminal()
  }

  predicate WaveSucceeded(ls: Leases, s: nat, wave: nat) {
    forall id :: id in ls && InWave(ls[id], s, wave) ==> Finished(ls[id], s, wave)
  }

  lemma LeastExists(ids: set<nat>) returns (least: nat)
    requires ids != {}
    ensures least in ids && forall i :: i in ids ==> least <= i
  {
    var a :| a in ids;
    if ids == {a} {
      least := a;
    } else {
      var b := LeastExists(ids - {a});
      least := if a <= b then a else b;
      forall i | i in ids
        ensures least <= i
      {
        assert i == a || i in ids - {a};
      }
    }
  }

  function Least(ids: set<nat>): (least: nat)
    requires ids != {}
    ensures least in ids && forall i :: i in ids ==> least <= i
  {
    assert exists i :: i in ids && forall j :: j in ids ==> i <= j by {
      var least := LeastExists(ids);
    }
    var i :| i in ids && forall j :: j in ids ==> i <= j;
    i
  }

  /** The next wave: the oldest waiting lease, with its whole waiting family when
      native solves of that family may overlap. */
  function NextWave(safe: set<string>, ls: Leases, waiting: set<nat>): set<nat>
    requires waiting != {} && waiting <= ls.Keys
  {
    var oldest := Least(waiting);
    if ls[oldest].req.family in safe
    then set id | id in waiting && ls[id].req.family == ls[oldest].req.family
    else {oldest}
  }

  /** Start wave `wave + 1` of a Desktop, sealing it if it was not. */
  function StartWave(safe: set<string>, st: Pool, s: nat): Pool
    requires s in st.sessions
  {
    var x := st.sessions[s];
    var begun := st.(sessions := st.sessions[s := x.(isSealed := true, wave := x.wave + 1)]);
    var waiting := Waiting(st.leases, s);
    if waiting == {} then begun
    else
      var chosen := NextWave(safe, st.leases, waiting);
      begun.(leases := map id | id in st.leases ::
        if id in chosen then st.leases[id].(permit := Some(x.wave + 1)) else st.leases[id])
  }

  /** A predecessor wave that failed ends the batch: the Desktop drains and every
      waiting member releases. */
  function StopBatch(st: Pool, s: nat, now: int): Pool
    requires s in st.sessions
  {
    var x := st.sessions[s];
    var drained := st.(sessions := st.sessions[s :=
      x.(state := Draining, fault := OtherFault,
         blockedAt := Coalesce(x.blockedAt, now), drainAt := Coalesce(x.drainAt, now))]);
    ReleaseLeases(drained, Waiting(st.leases, s), now)
  }

  /** What the grant does once the reservations are refreshed. */
  function GrantReady(safe: set<string>, st: Pool, s: nat, now: int, underfilled: bool): Pool {
    if s !in st.sessions || !st.sessions[s].state.Assignable() then st
    else
      var x := st.sessions[s];
      if !x.isSealed then
        if MaySeal(st, s, underfilled) then StartWave(safe, st, s) else st
      else if !WaveOver(st.leases, s, x.wave) then st
      else if !WaveSucceeded(st.leases, s, x.wave) then StopBatch(st, s, now)
      else if Waiting(st.leases, s) == {} then st
      else StartWave(safe, st, s)
  }

  function GrantBatch(safe: set<string>, st: Pool, s: nat, now: int, underfilled: bool): Pool {
    GrantReady(safe, RefreshReservations(st, now), s, now, underfilled)
  }
}
