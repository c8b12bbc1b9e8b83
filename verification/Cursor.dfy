/** The bounded placement pass: which queued leases it examines, and in what order. */
module PoolCursor {
  import opened PoolRows
  import opened PoolPlacement
  import opened PoolSolve

  const BATCH_SIZE: nat := 32

  /** Ids in ascending order. */
  function InOrder(ids: set<nat>): (s: seq<nat>)
    ensures |s| == |ids| && forall i :: i in s <==> i in ids
  {
    if ids == {} then []
    else
      var a := Least(ids);
      var rest := InOrder(ids - {a});
      assert forall i :: i in ids <==> i == a || i in ids - {a};
      [a] + rest
  }

  /** Ids after the cursor first, then the wrapped ones, each part ascending. */
  function Rotated(ids: set<nat>, cursor: nat): (s: seq<nat>)
    ensures |s| == |ids| && forall i :: i in s <==> i in ids
  {
    var after := set i | i in ids && i > cursor;
    var wrapped := set i | i in ids && i <= cursor;
    assert ids == after + wrapped && after !! wrapped;
    InOrder(after) + InOrder(wrapped)
  }

  function Batch(ids: set<nat>, cursor: nat): (s: seq<nat>)
    ensures |s| == if |ids| <= 32 then |ids| else 32
    ensures forall i :: i in s ==> i in ids
  {
    var all := Rotated(ids, cursor);
    if |all| <= BATCH_SIZE then all else all[..BATCH_SIZE]
  }

  function NextCursor(batch: seq<nat>): nat {
    if batch == [] then 0 else batch[|batch| - 1]
  }

  /** Queued leases whose client still polls. */
  function Eligible(st: Pool, cfg: Config, now: int): set<nat> {
    set id | id in st.leases && st.leases[id].state.Queued?
             && (st.leases[id].req.protocol < 2 || st.leases[id].heartbeat >= now - cfg.queuedStale)
  }

  /** One bounded pass over the queue. */
  function PlaceBatch(st: Pool, cfg: Config, now: int): Pool {
    if !cfg.operational then st
    else
      var batch := Batch(Eligible(st, cfg, now), st.cursor);
      PlaceEach(st.(cursor := NextCursor(batch)), cfg, batch, now)
  }

  /** A pass for one named lease; the cursor stays. */
  function PlaceNamed(st: Pool, cfg: Config, id: nat, now: int): Pool {
    if cfg.operational && id in Eligible(st, cfg, now) then PlaceEach(st, cfg, [id], now) else st
  }
}
