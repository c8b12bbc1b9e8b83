/** The rotating placement cursor starves nobody. */
module PoolCursorProofs {
  import opened PoolSolve
  import opened PoolSettle
  import opened PoolCursor

  /** `j` is examined before `i` when a pass starts after the cursor. */
  predicate Precedes(cursor: nat, j: nat, i: nat) {
    || (j > cursor && i > cursor && j < i)
    || (j > cursor && i <= cursor)
    || (j <= cursor && i <= cursor && j < i)
  }

  /** The candidates ahead of `i`. */
  function Ahead(ids: set<nat>, cursor: nat, i: nat): set<nat> {
    set j | j in ids && Precedes(cursor, j, i)
  }

  lemma {:induction false} InOrderAscends(ids: set<nat>, p: nat, q: nat)
    requires p < q < |ids|
    ensures InOrder(ids)[p] < InOrder(ids)[q]
    decreases |ids|
  {
    var a := Least(ids);
    var others := ids - {a};
    var rest := InOrder(others);
    FirstInOrder(ids);
    hide InOrder;
    if p == 0 {
      assert rest[q - 1] in rest;
      assert rest[q - 1] in others;
    } else {
      InOrderAscends(others, p - 1, q - 1);
    }
  }

  lemma FirstInOrder(ids: set<nat>)
    requires ids != {}
    ensures InOrder(ids) == [Least(ids)] + InOrder(ids - {Least(ids)})
  {
  }

  lemma RotatedAscends(ids: set<nat>, cursor: nat, p: nat, q: nat)
    requires p < q < |ids|
    ensures Precedes(cursor, Rotated(ids, cursor)[p], Rotated(ids, cursor)[q])
  {
    var after := set i | i in ids && i > cursor;
    var wrapped := set i | i in ids && i <= cursor;
    assert Rotated(ids, cursor) == InOrder(after) + InOrder(wrapped);
    assert |Rotated(ids, cursor)| == |ids|;
    AppendAscends(after, wrapped, cursor, p, q);
  }

  lemma AppendAscends(after: set<nat>, wrapped: set<nat>, cursor: nat, p: nat, q: nat)
    requires (forall i :: i in after ==> i > cursor) && (forall i :: i in wrapped ==> i <= cursor)
    requires p < q < |InOrder(after) + InOrder(wrapped)|
    ensures Precedes(cursor, (InOrder(after) + InOrder(wrapped))[p], (InOrder(after) + InOrder(wrapped))[q])
  {
    var x, y := InOrder(after), InOrder(wrapped);
    hide InOrder;
    if q < |x| {
      InOrderAscends(after, p, q);
      assert x[p] in after && x[q] in after;
    } else if p >= |x| {
      InOrderAscends(wrapped, p - |x|, q - |x|);
      assert y[p - |x|] in wrapped && y[q - |x|] in wrapped;
    } else {
      assert x[p] in after && y[q - |x|] in wrapped;
    }
  }

  /** The candidate at position `p` has exactly `p` candidates ahead. */
  lemma PositionIsAhead(ids: set<nat>, cursor: nat, p: nat)
    requires p < |ids|
    ensures
      var all := Rotated(ids, cursor);
      && Ahead(ids, cursor, all[p]) == (set k | 0 <= k < p :: all[k])
      && |Ahead(ids, cursor, all[p])| == p
  {
    var all := Rotated(ids, cursor);
    var first := set k | 0 <= k < p :: all[k];
    forall j | j in Ahead(ids, cursor, all[p])
      ensures j in first
    {
      var k :| 0 <= k < |all| && all[k] == j;
      if k > p {
        RotatedAscends(ids, cursor, p, k);
      }
    }
    forall k | 0 <= k < p
      ensures all[k] in Ahead(ids, cursor, all[p])
    {
      RotatedAscends(ids, cursor, k, p);
    }
    PrefixSize(ids, cursor, p);
  }

  lemma NeverFirst(cursor: nat, i: nat)
    ensures !Precedes(cursor, i, i)
  {
  }

  lemma {:induction false} PrefixSize(ids: set<nat>, cursor: nat, p: nat)
    requires p <= |ids|
    ensures |set k | 0 <= k < p :: Rotated(ids, cursor)[k]| == p
  {
    hide Rotated, Precedes;
    var all := Rotated(ids, cursor);
    if p > 0 {
      var shorter := set k | 0 <= k < p - 1 :: all[k];
      PrefixSize(ids, cursor, p - 1);
      assert (set k | 0 <= k < p :: all[k]) == shorter + {all[p - 1]};
      forall k | 0 <= k < p - 1
        ensures all[k] != all[p - 1]
      {
        RotatedAscends(ids, cursor, k, p - 1);
        NeverFirst(cursor, all[k]);
      }
    }
  }

  /** A pass examines exactly the candidates with fewer than a batch ahead of them. */
  lemma ExaminedIffNear(ids: set<nat>, cursor: nat, i: nat)
    requires i in ids
    ensures i in Batch(ids, cursor) <==> |Ahead(ids, cursor, i)| < 32
  {
    var all := Rotated(ids, cursor);
    var p :| 0 <= p < |all| && all[p] == i;
    PositionIsAhead(ids, cursor, p);
    if p < BATCH_SIZE {
      assert Batch(ids, cursor)[p] == i;
    }
    if i in Batch(ids, cursor) {
      var k :| 0 <= k < |Batch(ids, cursor)| && Batch(ids, cursor)[k] == i;
      assert all[k] == i;
      PositionIsAhead(ids, cursor, k);
    }
  }

  /** A pass that does not examine a candidate takes a whole batch from ahead of it. */
  lemma PassAdvances(ids: set<nat>, cursor: nat, i: nat)
    requires i in ids && i !in Batch(ids, cursor)
    ensures
      var next := NextCursor(Batch(ids, cursor));
      |Ahead(ids, next, i)| == |Ahead(ids, cursor, i)| - 32
  {
    var all := Rotated(ids, cursor);
    var batch := Batch(ids, cursor);
    ExaminedIffNear(ids, cursor, i);
    assert |batch| == BATCH_SIZE && batch == all[..BATCH_SIZE];
    var last := BATCH_SIZE - 1;
    var next := all[last];
    assert NextCursor(batch) == next;
    PositionIsAhead(ids, cursor, last);
    var p :| 0 <= p < |all| && all[p] == i;
    PositionIsAhead(ids, cursor, p);
    RotatedAscends(ids, cursor, last, p);
    var gone := Ahead(ids, cursor, next) + {next};
    assert gone <= Ahead(ids, cursor, i);
    forall j | j in ids
      ensures Precedes(next, j, i) <==> Precedes(cursor, j, i) && j !in gone
    {
      CyclicOrder(cursor, next, j, i);
    }
    assert Ahead(ids, next, i) == Ahead(ids, cursor, i) - gone;
  }

  lemma CyclicOrder(cursor: nat, next: nat, j: nat, i: nat)
    requires Precedes(cursor, next, i)
    ensures Precedes(next, j, i) <==> Precedes(cursor, j, i) && j != next && !Precedes(cursor, j, next)
  {
  }

  /** The cursor after `k` passes over an unchanged queue. */
  function Passes(ids: set<nat>, cursor: nat, k: nat): nat
    decreases k
  {
    if k == 0 then cursor else Passes(ids, NextCursor(Batch(ids, cursor)), k - 1)
  }

  /** The first pass that examines `i` is the one its distance predicts. */
  lemma {:induction false} ExaminedAt(ids: set<nat>, cursor: nat, i: nat)
    requires i in ids
    ensures i in Batch(ids, Passes(ids, cursor, |Ahead(ids, cursor, i)| / 32))
    decreases |Ahead(ids, cursor, i)|
  {
    hide Ahead, Batch, NextCursor;
    ExaminedIffNear(ids, cursor, i);
    var distance := |Ahead(ids, cursor, i)|;
    if i !in Batch(ids, cursor) {
      PassAdvances(ids, cursor, i);
      ExaminedAt(ids, NextCursor(Batch(ids, cursor)), i);
      assert (distance - BATCH_SIZE) / BATCH_SIZE == distance / BATCH_SIZE - 1;
    } else {
      assert distance / BATCH_SIZE == 0;
    }
  }

  /** Over a queue of n candidates, each one is examined within ceil(n / 32) passes,
      wherever the cursor stands. */
  lemma NobodyStarves(ids: set<nat>, cursor: nat, i: nat)
    requires i in ids
    ensures exists k :: 0 <= k < (|ids| + 31) / 32 && i in Batch(ids, Passes(ids, cursor, k))
  {
    var k := |Ahead(ids, cursor, i)| / BATCH_SIZE;
    assert Ahead(ids, cursor, i) <= ids - {i};
    Subset(Ahead(ids, cursor, i), ids - {i});
    ExaminedAt(ids, cursor, i);
  }
}
