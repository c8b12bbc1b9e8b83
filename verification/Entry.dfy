/** The inserts: new leases, reservations and session rows, and the completion marker. */
module PoolEntry {
  import opened PoolRows
  import opened PoolSolve

  /** The next AUTOINCREMENT id of a table whose rows are never deleted. */
  function NextId(ids: set<nat>): (n: nat)
    ensures n > 0 && n !in ids && (n == 1 || n - 1 in ids) && forall i :: i in ids ==> i < n
  {
    if ids == {} then 1
    else
      var a := Least(ids);
      var n := NextId(ids - {a});
      assert forall i :: i in ids ==> i == a || i in ids - {a};
      if a < n then n else a + 1
  }

  /** Insert a queued lease; a pinned one claims its reservation. */
  function AddLease(st: Pool, l: Lease): Pool {
    var id := NextId(st.leases.Keys);
    st.(leases := st.leases[id := l],
        reservations := if l.req.pin != 0 && l.req.pin in st.reservations
                        then st.reservations[l.req.pin :=
                               st.reservations[l.req.pin].(state := Claimed, lease := Some(id))]
                        else st.reservations)
  }

  function AddReservation(st: Pool, r: Reservation): Pool {
    st.(reservations := st.reservations[NextId(st.reservations.Keys) := r])
  }

  /** One reserved slot per task, under one key. */
  function AddReservations(st: Pool, r: Reservation, tasks: seq<nat>): Pool
    decreases |tasks|
  {
    if tasks == [] then st
    else AddReservations(AddReservation(st, r.(task := tasks[0])), r, tasks[1..])
  }

  function AddSession(st: Pool, x: Session): Pool {
    st.(sessions := st.sessions[NextId(st.sessions.Keys) := x])
  }

  function AddSessions(st: Pool, xs: seq<Session>): Pool
    decreases |xs|
  {
    if xs == [] then st else AddSessions(AddSession(st, xs[0]), xs[1..])
  }

  /** Write the completion marker for the permit the lease shows. */
  function MarkPipeline(st: Pool, id: nat): Pool
    requires id in st.leases && st.leases[id].session.Some? && st.leases[id].permit.Some?
  {
    var l := st.leases[id];
    st.(leases := st.leases[id := l.(marker := Some(Marker(l.session.value, l.permit.value)))])
  }
}
