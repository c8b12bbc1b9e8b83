/** Sums and tallies over the planner's ledgers. */
module PlannerCounts {

  function Min(a: int, b: int): int { if a <= b then a else b }
  function Max(a: int, b: int): int { if a >= b then a else b }

  function Sum(s: seq<nat>): nat {
    if s == [] then 0 else s[0] + Sum(s[1..])
  }

  lemma {:induction false} SumUpdate(s: seq<nat>, i: nat, v: nat)
    requires i < |s|
    ensures Sum(s[i := v]) == Sum(s) - s[i] + v
    decreases |s|
  {
    if i > 0 {
      SumUpdate(s[1..], i - 1, v);
      assert s[i := v][1..] == s[1..][i - 1 := v];
    } else {
      assert s[i := v][1..] == s[1..];
    }
  }

  lemma {:induction false} SumAppend(s: seq<nat>, v: nat)
    ensures Sum(s + [v]) == Sum(s) + v
    decreases |s|
  {
    if s == [] {
      assert s + [v] == [v];
    } else {
      assert (s + [v])[1..] == s[1..] + [v];
      SumAppend(s[1..], v);
    }
  }

  function Zeros(n: nat): (s: seq<nat>)
    ensures |s| == n && Sum(s) == 0 && forall i :: 0 <= i < n ==> s[i] == 0
  {
    if n == 0 then [] else [0] + Zeros(n - 1)
  }

  // ----- placements -----

  /** A planned Desktop start: the allocation, by position, and the demand it serves. */
  datatype Demand = Strict(route: nat) | Generic(account: nat)
  datatype Placement = Placement(node: nat, demand: Demand)

  function OnNode(ps: seq<Placement>, node: nat): nat {
    if ps == [] then 0 else OnNode(ps[1..], node) + if ps[0].node == node then 1 else 0
  }

  function Serving(ps: seq<Placement>, demand: Demand): nat {
    if ps == [] then 0 else Serving(ps[1..], demand) + if ps[0].demand == demand then 1 else 0
  }

  lemma {:induction false} TallyAppend(ps: seq<Placement>, p: Placement, node: nat, demand: Demand)
    ensures OnNode(ps + [p], node) == OnNode(ps, node) + if p.node == node then 1 else 0
    ensures Serving(ps + [p], demand) == Serving(ps, demand) + if p.demand == demand then 1 else 0
    decreases |ps|
  {
    if ps == [] {
      assert ps + [p] == [p];
    } else {
      assert (ps + [p])[1..] == ps[1..] + [p];
      TallyAppend(ps[1..], p, node, demand);
    }
  }
}
