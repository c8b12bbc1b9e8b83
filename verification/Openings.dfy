/** The plan meets the database: the Desktops that a pass opens are the plan's placements,
    and the tables it leaves keep the session limit and every allocation's totals. */
module PoolOpenings {
  import opened PoolRows
  import opened PoolEntry
  import opened PoolReconcile
  import opened PlannerCounts
  import opened PoolPlanner
  import opened PoolPlan

  /** The Desktop counts against the limit: starting, ready or busy, on an allocation
      that is not gone. */
  predicate Counts(allocations: Allocations, x: Session) {
    (x.state.Starting? || x.state.Assignable())
    && !(x.allocation in allocations && allocations[x.allocation].state.AllocGone?)
  }

  function Counted(st: Pool): set<nat> {
    set s | s in st.sessions && Counts(st.allocations, st.sessions[s])
  }

  predicate Carries(x: Session, a: nat) {
    x.allocation == a && !x.state.Over()
  }

  /** The Desktops that an allocation carries. */
  function Hosted(st: Pool, a: nat): set<nat> {
    set s | s in st.sessions && Carries(st.sessions[s], a)
  }

  function OnAllocation(xs: seq<Session>, a: nat): nat {
    if xs == [] then 0 else OnAllocation(xs[1..], a) + if xs[0].allocation == a then 1 else 0
  }

  lemma Smaller(a: set<nat>, b: set<nat>)
    requires a <= b
    ensures |a| <= |b|
  {
    assert b == a + (b - a);
  }

  lemma OneCounted(st: Pool, x: Session)
    ensures |Counted(AddSession(st, x))| <= |Counted(st)| + 1
  {
    hide Counts;
    var su, s := AddSession(st, x), NextId(st.sessions.Keys);
    Smaller(Counted(su), Counted(st) + {s});
  }

  lemma OneHosted(st: Pool, x: Session, a: nat)
    requires !x.state.Over()
    ensures |Hosted(AddSession(st, x), a)| == |Hosted(st, a)| + if x.allocation == a then 1 else 0
  {
    hide NextId;
    var su, s := AddSession(st, x), NextId(st.sessions.Keys);
    forall t
      ensures t in Hosted(su, a) <==> t in Hosted(st, a) || (t == s && x.allocation == a)
    {
    }
    assert s !in Hosted(st, a);
    hide Hosted;
    assert Hosted(su, a) == Hosted(st, a) + if x.allocation == a then {s} else {};
  }

  lemma {:induction false} AllAdded(st: Pool, xs: seq<Session>, a: nat)
    requires forall i :: 0 <= i < |xs| ==> xs[i].state.Starting?
    ensures |Counted(AddSessions(st, xs))| <= |Counted(st)| + |xs|
    ensures |Hosted(AddSessions(st, xs), a)| == |Hosted(st, a)| + OnAllocation(xs, a)
    decreases |xs|
  {
    hide Counted, Hosted, AddSession;
    if xs != [] {
      OneCounted(st, xs[0]);
      OneHosted(st, xs[0], a);
      AllAdded(AddSession(st, xs[0]), xs[1..], a);
    }
  }

  /** Draining a Desktop leaves it on its allocation. */
  predicate DrainMove(x: Session, y: Session) {
    y == x || (x.state.Assignable() && y.state.Draining? && y.allocation == x.allocation)
  }

  lemma Fewer(st: Pool, su: Pool, a: nat)
    requires su.sessions.Keys == st.sessions.Keys && su.allocations == st.allocations
    requires forall s :: s in st.sessions ==> DrainMove(st.sessions[s], su.sessions[s])
    ensures Counted(su) <= Counted(st) && Hosted(su, a) == Hosted(st, a)
  {
    forall s | s in st.sessions
      ensures Counts(st.allocations, su.sessions[s]) ==> Counts(st.allocations, st.sessions[s])
      ensures Carries(su.sessions[s], a) <==> Carries(st.sessions[s], a)
    {
    }
    hide Counts, Carries, DrainMove;
  }

  lemma DrainsShrink(st: Pool, rebalance: set<nat>, surplus: set<nat>, now: int, a: nat)
    ensures
      var su := DrainSurplus(DrainRebalanced(st, rebalance, now), surplus, now);
      Counted(su) <= Counted(st) && Hosted(su, a) == Hosted(st, a)
  {
    hide Counted, Hosted, NothingHeld;
    var su := DrainRebalanced(st, rebalance, now);
    Fewer(st, su, a);
    hide DrainRebalanced;
    Fewer(su, DrainSurplus(su, surplus, now), a);
  }

  /** What the pass writes: at most one counted Desktop for each opening, and on every
      allocation exactly the openings more. */
  lemma Applied(st: Pool, cfg: Config, orders: Orders, now: int, xs: seq<Session>, a: nat)
    requires |xs| == |orders.opening| && forall i :: 0 <= i < |xs| ==> xs[i] == Opened(orders.opening[i], now)
    ensures |Counted(Apply(st, cfg, orders, now))| <= |Counted(st)| + |orders.opening|
    ensures |Hosted(Apply(st, cfg, orders, now), a)| == |Hosted(st, a)| + OnAllocation(xs, a)
  {
    var drained := DrainSurplus(DrainRebalanced(st, orders.rebalance, now), orders.surplus, now);
    DrainsShrink(st, orders.rebalance, orders.surplus, now, a);
    hide DrainSurplus, DrainRebalanced, Counted, Hosted;
    Smaller(Counted(drained), Counted(st));
    AllAdded(drained, xs, a);
    assert xs == seq(|orders.opening|, i requires 0 <= i < |orders.opening| => Opened(orders.opening[i], now));
  }

  /** The rows of the placements. */
  function OpeningFor(p: Placement, ids: seq<nat>, nodes: seq<Node>, slots: nat): Opening
    requires p.node < |ids| == |nodes|
  {
    Opening(ids[p.node], nodes[p.node].name, slots)
  }

  predicate DistinctIds(ids: seq<nat>) {
    forall i, j :: 0 <= i < j < |ids| ==> ids[i] != ids[j]
  }

  lemma {:induction false} RowsCount(ps: seq<Placement>, xs: seq<Session>, ids: seq<nat>, k: nat)
    requires |xs| == |ps| && DistinctIds(ids) && k < |ids|
    requires forall i :: 0 <= i < |ps| ==> ps[i].node < |ids| && xs[i].allocation == ids[ps[i].node]
    ensures OnAllocation(xs, ids[k]) == OnNode(ps, k)
    decreases |ps|
  {
    if ps != [] {
      RowsCount(ps[1..], xs[1..], ids, k);
    }
  }

  /** The openings of the placements, and what the tables then say. */
  lemma OpenedRows(st: Pool, cfg: Config, orders: Orders, ids: seq<nat>, nodes: seq<Node>, slots: nat,
                   ps: seq<Placement>, now: int, k: nat)
    requires |ids| == |nodes| && DistinctIds(ids) && k < |ids| && |orders.opening| == |ps|
    requires forall i :: 0 <= i < |ps| ==>
      ps[i].node < |ids| && orders.opening[i] == OpeningFor(ps[i], ids, nodes, slots)
    ensures |Hosted(Apply(st, cfg, orders, now), ids[k])| == |Hosted(st, ids[k])| + OnNode(ps, k)
  {
    var xs := seq(|ps|, i requires 0 <= i < |ps| => Opened(orders.opening[i], now));
    RowsCount(ps, xs, ids, k);
    hide Hosted, Apply;
    Applied(st, cfg, orders, now, xs, ids[k]);
  }

  lemma OpenedCount(st: Pool, cfg: Config, orders: Orders, now: int)
    ensures |Counted(Apply(st, cfg, orders, now))| <= |Counted(st)| + |orders.opening|
  {
    hide Counted, Apply;
    var xs := seq(|orders.opening|, i requires 0 <= i < |orders.opening| => Opened(orders.opening[i], now));
    Applied(st, cfg, orders, now, xs, 0);
  }

  lemma AllOnNodes(nodes: seq<Node>, demands: Demands, allows: PartitionSpec, ps: seq<Placement>)
    requires AllServe(nodes, demands.routes, demands.accounts, allows, ps)
    ensures forall i :: 0 <= i < |ps| ==> ps[i].node < |nodes|
  {
    hide Matches;
  }

  /** Starting, ready and busy Desktops whose allocation is not known to be gone. */
  ghost function Running(st: Pool): set<nat> {
    set s | s in st.sessions && (st.sessions[s].state.Starting? || st.sessions[s].state.Ready? || st.sessions[s].state.Busy?)
            && (st.sessions[s].allocation in st.allocations ==> !st.allocations[st.sessions[s].allocation].state.AllocGone?)
  }

  /** The Desktops of the allocation that are not over. */
  ghost function OnIt(st: Pool, a: nat): set<nat> {
    set s | s in st.sessions && st.sessions[s].allocation == a
            && !st.sessions[s].state.SessionClosed? && !st.sessions[s].state.SessionFailed?
  }

  lemma SameSets(st: Pool)
    ensures Running(st) == Counted(st) && forall a :: OnIt(st, a) == Hosted(st, a)
  {
  }

  /** Allocation `a` carries as many Desktops more as were placed on it, and if there are any,
      all of its Desktops with their projects fit its CPUs and memory. */
  ghost predicate Carried(st: Pool, su: Pool, a: nat, n: Node, shape: Shape, placed: nat) {
    var carried := |OnIt(su, a)|;
    && carried == |OnIt(st, a)| + placed
    && (placed > 0 ==>
          && carried * (1 + shape.projectCpus * shape.slots) <= Max(0, n.cpus)
          && carried * Max(1024, shape.projectMemory * shape.slots) <= Max(0, n.memory))
  }

  lemma CarriedRows(st: Pool, su: Pool, current: seq<nat>, ids: seq<nat>, nodes: seq<Node>, shape: Shape,
                    ps: seq<Placement>, k: nat)
    requires |ids| == |nodes| && |current| == |nodes| && k < |ids| && current[k] == |Hosted(st, ids[k])|
    requires Footprints(nodes, shape, current, ps)
    requires |Hosted(su, ids[k])| == |Hosted(st, ids[k])| + OnNode(ps, k)
    ensures Carried(st, su, ids[k], nodes[k], shape, OnNode(ps, k))
  {
    SameSets(st);
    SameSets(su);
    hide Hosted, OnIt;
  }

  /** Plan on what the tables say and open what the plan places: whatever is drained beside
      it, the counted Desktops stay within the limit or do not grow, and every allocation
      that gets a Desktop carries all of its Desktops within its CPUs and memory. */
  method OpenPlanned(st: Pool, cfg: Config, orders: Orders, ids: seq<nat>, nodes: seq<Node>, pending: seq<Node>,
                     shape: Shape, allows: PartitionSpec, demands: Demands, limit: nat, now: int)
    returns (opening: seq<Opening>, plan: Plan)
    requires |ids| == |nodes| && DistinctIds(ids) && demands.Valid()
    ensures |opening| == |plan.placements|
    ensures forall i :: 0 <= i < |opening| ==>
      var p := plan.placements[i];
      p.node < |ids| && opening[i] == Opening(ids[p.node], nodes[p.node].name, shape.slots)
    ensures |Running(Apply(st, cfg, orders.(opening := opening), now))| <= Max(|Running(st)|, limit)
    ensures forall k :: 0 <= k < |ids| ==>
      Carried(st, Apply(st, cfg, orders.(opening := opening), now), ids[k], nodes[k], shape, OnNode(plan.placements, k))
  {
    hide Counted, Running, Hosted, Apply, AllServe, LedgerCounts, Footprints, Conserves, StrictUse, GenericUse, PendingFits;
    hide PlacesAll, CoversAll, DistinctIds, Sum, Carried, Shares, Affords, NewNode, OnNode;
    var current := seq(|ids|, k requires 0 <= k < |ids| => |Hosted(st, ids[k])|);
    ghost var strict, generic, planned, ledger;
    plan, strict, generic, planned, ledger :=
      MakePlan(nodes, pending, current, shape, allows, demands, |Counted(st)|, limit);
    var ps := plan.placements;
    AllOnNodes(nodes, demands, allows, ps);
    opening := seq(|ps|, i requires 0 <= i < |ps| => OpeningFor(ps[i], ids, nodes, shape.slots));
    ghost var after := orders.(opening := opening);
    OpenedCount(st, cfg, after, now);
    SameSets(st);
    SameSets(Apply(st, cfg, after, now));
    forall k | 0 <= k < |ids|
      ensures Carried(st, Apply(st, cfg, after, now), ids[k], nodes[k], shape, OnNode(ps, k))
    {
      OpenedRows(st, cfg, after, ids, nodes, shape.slots, ps, now, k);
      CarriedRows(st, Apply(st, cfg, after, now), current, ids, nodes, shape, ps, k);
    }
  }
}
