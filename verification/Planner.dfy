/** The capacity planner: a start budget, its division over demands, the placement of
    starts on allocations, the cover by pending allocations and the requests for nodes. */
module PoolPlanner {
  import opened PlannerCounts

  /** What one Desktop takes from an allocation. */
  datatype Shape = Shape(slots: nat, projectCpus: nat, projectMemory: nat)
  {
    function Cpus(): (c: nat) ensures c >= 1 { 1 + projectCpus * slots }
    function Memory(): (m: nat) ensures m >= 1024 { Max(1024, projectMemory * slots) }
  }

  /** An allocation; a negative column counts as zero. */
  datatype Node = Node(account: string, name: string, partition: string,
                       cpus: int, memory: int, freeCpus: int, freeMemory: int)

  /** A control CPU for each Desktop and the configured CPUs for each of its projects fit the
      allocation, and so does the memory of the projects, 1024 MB for a Desktop at least. */
  predicate Within(shape: Shape, n: Node, sessions: int) {
    && sessions * (1 + shape.projectCpus * shape.slots) <= Max(0, n.cpus)
    && sessions * Max(1024, shape.projectMemory * shape.slots) <= Max(0, n.memory)
  }

  /** Units of `each` that fit the total, and the free part beyond the current ones. */
  function Room(total: nat, free: nat, each: nat, current: nat): (r: nat)
    requires each > 0
    ensures r * each <= total && r <= current + free / each
  {
    var r := Min(total / each, current + free / each);
    FitsTotal(r, total, each);
    r
  }

  /** How many Desktops the allocation can hold when it holds `current` already. */
  function Capacity(n: Node, shape: Shape, current: nat): (r: nat)
    ensures Within(shape, n, r)
  {
    var cpu := Room(Max(0, n.cpus), Max(0, n.freeCpus), shape.Cpus(), current);
    var memory := Room(Max(0, n.memory), Max(0, n.freeMemory), shape.Memory(), current);
    Monotone(Min(cpu, memory), cpu, shape.Cpus());
    Monotone(Min(cpu, memory), memory, shape.Memory());
    Min(cpu, memory)
  }

  /** Desktops that the whole allocation can hold, and that its free part can take. */
  function TotalRoom(n: Node, shape: Shape): nat {
    Min(Max(0, n.cpus) / shape.Cpus(), Max(0, n.memory) / shape.Memory())
  }

  function OpenRoom(n: Node, shape: Shape): nat {
    Min(Max(0, n.freeCpus) / shape.Cpus(), Max(0, n.freeMemory) / shape.Memory())
  }

  lemma CapacityForm(n: Node, shape: Shape, current: nat)
    ensures Capacity(n, shape, current) == Min(TotalRoom(n, shape), current + OpenRoom(n, shape))
    ensures Free(n, shape, current) == Max(0, Min(TotalRoom(n, shape) - current, OpenRoom(n, shape)))
  {
  }

  /** `sessions` Desktops fit the totals, and those beyond the `current` ones the free columns. */
  predicate Affords(n: Node, shape: Shape, current: nat, sessions: nat) {
    var cpus, memory := 1 + shape.projectCpus * shape.slots, Max(1024, shape.projectMemory * shape.slots);
    && sessions * cpus <= Max(0, n.cpus) && sessions * memory <= Max(0, n.memory)
    && (sessions - current) * cpus <= Max(0, n.freeCpus) && (sessions - current) * memory <= Max(0, n.freeMemory)
  }

  /** The capacity is the greatest number of Desktops that the configured project sizes allow. */
  lemma CapacityIsGreatest(n: Node, shape: Shape, current: nat)
    ensures Affords(n, shape, current, Capacity(n, shape, current))
    ensures forall sessions: nat :: Affords(n, shape, current, sessions) ==> sessions <= Capacity(n, shape, current)
  {
    var r := Capacity(n, shape, current);
    RoomIsGreatest(Max(0, n.cpus), Max(0, n.freeCpus), shape.Cpus(), current, r);
    RoomIsGreatest(Max(0, n.memory), Max(0, n.freeMemory), shape.Memory(), current, r);
    forall sessions: nat | Affords(n, shape, current, sessions)
      ensures sessions <= r
    {
      RoomIsGreatest(Max(0, n.cpus), Max(0, n.freeCpus), shape.Cpus(), current, sessions);
      RoomIsGreatest(Max(0, n.memory), Max(0, n.freeMemory), shape.Memory(), current, sessions);
    }
  }

  lemma RoomIsGreatest(total: nat, free: nat, each: nat, current: nat, r: nat)
    requires each > 0
    ensures r <= Room(total, free, each, current) <==> r * each <= total && (r - current) * each <= free
  {
    Quotient(r, total, each);
    Quotient(r - current, free, each);
  }

  lemma Quotient(r: int, total: nat, each: nat)
    requires each > 0
    ensures r <= total / each <==> r * each <= total
  {
    var q := total / each;
    assert q * each <= total < (q + 1) * each;
    if r <= q {
      assert (q - r) * each >= 0;
      assert (q - r) * each == q * each - r * each;
    } else {
      assert (r - q - 1) * each >= 0;
      assert (r - q - 1) * each == r * each - (q + 1) * each;
    }
  }

  lemma FitsTotal(r: nat, total: nat, each: nat)
    requires each > 0 && r <= total / each
    ensures r * each <= total
  {
    Monotone(r, total / each, each);
  }

  lemma Monotone(a: nat, b: nat, c: nat)
    requires a <= b
    ensures a * c <= b * c
  {
  }

  // ----- dividing the start budget -----

  /** Strict routes are served in order, each in full while the budget lasts. */
  method GrantStrict(needs: seq<nat>, budget: nat) returns (granted: seq<nat>, left: nat)
    ensures |granted| == |needs| && Sum(granted) + left == budget
    ensures forall i :: 0 <= i < |needs| ==> granted[i] <= needs[i]
    ensures forall i, j :: 0 <= i < j < |needs| && granted[i] < needs[i] ==> granted[j] == 0
    ensures left > 0 ==> granted == needs
  {
    granted, left := Zeros(|needs|), budget;
    for i := 0 to |needs|
      invariant |granted| == |needs| && Sum(granted) + left == budget
      invariant forall k :: i <= k < |needs| ==> granted[k] == 0
      invariant forall k :: 0 <= k < i ==> granted[k] <= needs[k] && (granted[k] < needs[k] ==> left == 0)
      invariant forall k, j :: 0 <= k < j < |needs| && k < i && granted[k] < needs[k] ==> granted[j] == 0
    {
      var give := Min(needs[i], left);
      SumUpdate(granted, i, give);
      granted := granted[i := give];
      left := left - give;
    }
  }

  /** What a round-robin over the accounts has handed out: `round` to each, and one more
      to the accounts before `cut`, none beyond its need. */
  predicate RoundRobin(needs: seq<nat>, granted: seq<nat>, round: nat, cut: nat) {
    |granted| == |needs| &&
    forall i :: 0 <= i < |needs| ==> granted[i] == Min(needs[i], if i < cut then round + 1 else round)
  }

  /** One turn for every account in order, until the budget runs out. */
  method OneRound(needs: seq<nat>, granted: seq<nat>, left: nat, ghost round: nat)
    returns (granted': seq<nat>, left': nat, turns: nat)
    requires RoundRobin(needs, granted, round, 0) && left > 0
    ensures turns <= |needs| && RoundRobin(needs, granted', round, turns)
    ensures Sum(granted') + left' == Sum(granted) + left && left' <= left
    ensures turns < |needs| ==> left' == 0
    ensures granted != needs ==> left' < left
  {
    granted', left', turns := granted, left, 0;
    while turns < |needs| && left' > 0
      invariant turns <= |needs| && left' <= left && RoundRobin(needs, granted', round, turns)
      invariant Sum(granted') + left' == Sum(granted) + left
      invariant left' == left ==> forall k :: 0 <= k < turns ==> granted[k] == needs[k]
    {
      if granted'[turns] < needs[turns] {
        SumUpdate(granted', turns, granted'[turns] + 1);
        granted' := granted'[turns := granted'[turns] + 1];
        left' := left' - 1;
      }
      turns := turns + 1;
    }
    if left' == left {
      assert granted == needs;
    }
  }

  /** Accounts take turns, one start each, until the budget or the need runs out. */
  method GrantGeneric(needs: seq<nat>, budget: nat) returns (granted: seq<nat>, left: nat)
    ensures |granted| == |needs| && Sum(granted) + left == budget
    ensures forall i :: 0 <= i < |needs| ==> granted[i] <= needs[i]
    ensures exists round: nat, cut: nat :: RoundRobin(needs, granted, round, cut)
    ensures left > 0 ==> granted == needs
  {
    granted, left := Zeros(|needs|), budget;
    ghost var round: nat, cut: nat := 0, 0;
    while left > 0 && granted != needs
      invariant Sum(granted) + left == budget
      invariant RoundRobin(needs, granted, round, cut)
      invariant cut == 0 || left == 0
      decreases left
    {
      var turns;
      granted, left, turns := OneRound(needs, granted, left, round);
      if turns < |needs| {
        cut := turns;
      } else {
        round := round + 1;
      }
    }
  }

  // ----- starts on live allocations -----

  datatype Route = Route(account: string, node: string, partition: string)

  /** The partitions a request allows, as pairs of request and partition. */
  type PartitionSpec = set<(string, string)>

  predicate Matches(n: Node, r: Route, allows: PartitionSpec) {
    n.account == r.account && n.name == r.node && (r.partition, n.partition) in allows
  }

  lemma MatchesMeans(n: Node, r: Route, allows: PartitionSpec)
    ensures Matches(n, r, allows) <==> n.account == r.account && n.name == r.node && (r.partition, n.partition) in allows
  {
  }

  /** Every allocation that gets a start stays within its CPUs and memory, counting
      the Desktops it already has. */
  ghost predicate LedgerFits(nodes: seq<Node>, shape: Shape, current: seq<nat>, planned: seq<nat>) {
    |current| == |nodes| && |planned| == |nodes| &&
    forall a :: 0 <= a < |nodes| && planned[a] > 0 ==> Within(shape, nodes[a], current[a] + planned[a])
  }

  lemma LedgerLength(nodes: seq<Node>, shape: Shape, current: seq<nat>, planned: seq<nat>)
    requires LedgerFits(nodes, shape, current, planned)
    ensures |current| == |nodes| && |planned| == |nodes|
  {
  }

  /** The ledger counts the placements. */
  ghost predicate LedgerCounts(planned: seq<nat>, placements: seq<Placement>) {
    forall a :: 0 <= a < |planned| ==> OnNode(placements, a) == planned[a]
  }

  /** Append `give` starts of one demand on one allocation. */
  method AddStarts(placements: seq<Placement>, node: nat, demand: Demand, give: nat) returns (out: seq<Placement>)
    ensures |out| == |placements| + give && out[..|placements|] == placements
    ensures forall i :: |placements| <= i < |out| ==> out[i] == Placement(node, demand)
    ensures forall a :: OnNode(out, a) == OnNode(placements, a) + (if a == node then give else 0)
    ensures forall d :: Serving(out, d) == Serving(placements, d) + (if d == demand then give else 0)
  {
    out := placements;
    for i := 0 to give
      invariant |out| == |placements| + i && out[..|placements|] == placements
      invariant forall k :: |placements| <= k < |out| ==> out[k] == Placement(node, demand)
      invariant forall a :: OnNode(out, a) == OnNode(placements, a) + (if a == node then i else 0)
      invariant forall d :: Serving(out, d) == Serving(placements, d) + (if d == demand then i else 0)
    {
      var p := Placement(node, demand);
      forall a
        ensures OnNode(out + [p], a) == OnNode(out, a) + (if a == node then 1 else 0)
      {
        TallyAppend(out, p, a, demand);
      }
      forall d
        ensures Serving(out + [p], d) == Serving(out, d) + (if d == demand then 1 else 0)
      {
        TallyAppend(out, p, node, d);
      }
      out := out + [p];
    }
  }

  /** The free places the planner sees on an allocation. */
  function Free(n: Node, shape: Shape, current: nat): (r: nat)
    ensures r > 0 ==> Within(shape, n, current + r)
  {
    Max(0, Capacity(n, shape, current) - current)
  }

  /** At least as many Desktops as the allocation could hold before the pass. */
  predicate Full(n: Node, shape: Shape, current: nat, planned: nat) {
    Capacity(n, shape, current) <= current + planned
  }

  /** A grant of all free places fills the allocation, and later grants keep it full. */
  lemma FullAfter(n: Node, shape: Shape, current: nat, planned: nat, planned': nat)
    requires planned + Free(n, shape, current + planned) <= planned'
    ensures Full(n, shape, current, planned')
  {
    CapacityForm(n, shape, current);
    CapacityForm(n, shape, current + planned);
  }

  /** Planned starts do not lower the free columns, so after a grant of all free places
      none is left only where the free part was nothing or reached up to the totals. */
  lemma FreeAfterGrant(n: Node, shape: Shape, current: nat)
    ensures Free(n, shape, current + Free(n, shape, current)) == 0
       <==> OpenRoom(n, shape) == 0 || TotalRoom(n, shape) <= current + OpenRoom(n, shape)
  {
    CapacityForm(n, shape, current);
    CapacityForm(n, shape, current + Free(n, shape, current));
  }

  /** One place of four is free, and after a start on it one is free again. */
  lemma GrantedTwice()
    ensures
      var n, shape := Node("a", "n1", "p", 8, 8192, 2, 1024), Shape(1, 1, 1024);
      && OpenRoom(n, shape) == 1 && TotalRoom(n, shape) == 4
      && Free(n, shape, 0) == 1 && Free(n, shape, 1) == 1 && 2 * shape.Cpus() > n.freeCpus
  {
    var n, shape := Node("a", "n1", "p", 8, 8192, 2, 1024), Shape(1, 1, 1024);
    CapacityForm(n, shape, 0);
    CapacityForm(n, shape, 1);
  }

  /** Where all that is taken is taken by Desktops of the pool, the free part reaches up to
      the totals: a full allocation has no place left, and no place is granted twice. */
  lemma ReachesTotals(n: Node, shape: Shape, current: nat, planned: nat)
    requires TotalRoom(n, shape) <= current + OpenRoom(n, shape)
    ensures Full(n, shape, current, planned) <==> Free(n, shape, current + planned) == 0
    ensures planned > 0 && Within(shape, n, current + planned) ==> planned <= OpenRoom(n, shape)
  {
    CapacityForm(n, shape, current);
    CapacityForm(n, shape, current + planned);
    if Within(shape, n, current + planned) {
      Quotient(current + planned, Max(0, n.cpus), shape.Cpus());
      Quotient(current + planned, Max(0, n.memory), shape.Memory());
    }
  }

  lemma WithinLess(n: Node, shape: Shape, a: nat, b: nat)
    requires a <= b && Within(shape, n, b)
    ensures Within(shape, n, a)
  {
    Monotone(a, b, shape.Cpus());
    Monotone(a, b, shape.Memory());
  }

  /** One allocation's share of a need: as much as its free places take. */
  method PlaceOn(n: Node, shape: Shape, node: nat, demand: Demand, current: nat, need: nat,
                 placements: seq<Placement>)
    returns (give: nat, out: seq<Placement>)
    ensures give == Min(Free(n, shape, current), need)
    ensures give > 0 ==> Within(shape, n, current + give)
    ensures |out| == |placements| + give && out[..|placements|] == placements
    ensures forall i :: |placements| <= i < |out| ==> out[i] == Placement(node, demand)
    ensures forall a :: OnNode(out, a) == OnNode(placements, a) + (if a == node then give else 0)
    ensures forall d :: Serving(out, d) == Serving(placements, d) + (if d == demand then give else 0)
  {
    var free := Free(n, shape, current);
    give := Min(free, need);
    if give > 0 {
      WithinLess(n, shape, current + give, current + free);
    }
    out := AddStarts(placements, node, demand, give);
  }

  /** The ledger after `give` more starts on one allocation. */
  lemma MorePlanned(nodes: seq<Node>, shape: Shape, current: seq<nat>, planned: seq<nat>,
                    before: seq<Placement>, out: seq<Placement>, a: nat, give: nat)
    requires LedgerFits(nodes, shape, current, planned) && LedgerCounts(planned, before) && a < |nodes|
    requires give > 0 ==> Within(shape, nodes[a], current[a] + planned[a] + give)
    requires forall b :: OnNode(out, b) == OnNode(before, b) + (if b == a then give else 0)
    ensures LedgerFits(nodes, shape, current, planned[a := planned[a] + give])
    ensures LedgerCounts(planned[a := planned[a] + give], out)
  {
  }

  /** The starts of one strict route, over the allocations that match it, in order. */
  method PlaceRoute(nodes: seq<Node>, shape: Shape, current: seq<nat>, r: nat, route: Route, allows: PartitionSpec,
                    need: nat, planned: seq<nat>, placements: seq<Placement>)
    returns (left: nat, planned': seq<nat>, placements': seq<Placement>)
    requires LedgerFits(nodes, shape, current, planned) && LedgerCounts(planned, placements)
    ensures LedgerFits(nodes, shape, current, planned') && LedgerCounts(planned', placements')
    ensures left <= need && |placements'| == |placements| + (need - left) && placements'[..|placements|] == placements
    ensures forall i :: |placements| <= i < |placements'| ==>
      placements'[i].demand == Strict(r) && placements'[i].node < |nodes|
      && Matches(nodes[placements'[i].node], route, allows)
    ensures forall d :: Serving(placements', d) == Serving(placements, d) + (if d == Strict(r) then need - left else 0)
    ensures forall a :: 0 <= a < |nodes| ==> planned[a] <= planned'[a]
    ensures left > 0 ==> forall a :: 0 <= a < |nodes| && Matches(nodes[a], route, allows) ==>
      planned'[a] == planned[a] + Free(nodes[a], shape, current[a] + planned[a])
  {
    left, planned', placements' := need, planned, placements;
    hide LedgerFits, LedgerCounts, Free, Within, Matches;
    assert |current| == |nodes| && |planned| == |nodes| by { LedgerLength(nodes, shape, current, planned); }
    for a := 0 to |nodes|
      invariant |planned'| == |nodes|
      invariant forall k :: a <= k < |nodes| ==> planned'[k] == planned[k]
      invariant forall k :: 0 <= k < |nodes| ==> planned[k] <= planned'[k]
      invariant left > 0 ==> forall k :: 0 <= k < a && Matches(nodes[k], route, allows) ==>
        planned'[k] == planned[k] + Free(nodes[k], shape, current[k] + planned[k])
      invariant LedgerFits(nodes, shape, current, planned') && LedgerCounts(planned', placements')
      invariant left <= need && |placements'| == |placements| + (need - left)
      invariant placements'[..|placements|] == placements
      invariant forall i :: |placements| <= i < |placements'| ==>
        placements'[i].demand == Strict(r) && placements'[i].node < |nodes|
        && Matches(nodes[placements'[i].node], route, allows)
      invariant forall d :: Serving(placements', d) == Serving(placements, d) + (if d == Strict(r) then need - left else 0)
    {
      MatchesMeans(nodes[a], route, allows);
      if left > 0 && nodes[a].account == route.account && nodes[a].name == route.node
         && (route.partition, nodes[a].partition) in allows {
        var give, out := PlaceOn(nodes[a], shape, a, Strict(r), current[a] + planned'[a], left, placements');
        MorePlanned(nodes, shape, current, planned', placements', out, a, give);
        placements' := out;
        planned' := planned'[a := planned'[a] + give];
        left := left - give;
      }
    }
  }

  /** One more start on the only allocation, for a route that matches it. */
  method StartOnOnly(n: Node, shape: Shape, r: nat, route: Route, allows: PartitionSpec, planned: seq<nat>,
                     placements: seq<Placement>)
    returns (planned': seq<nat>, placements': seq<Placement>)
    requires |planned| == 1 && Matches(n, route, allows) && Free(n, shape, planned[0]) >= 1
    requires LedgerFits([n], shape, [0], planned) && LedgerCounts(planned, placements)
    ensures |planned'| == 1 && planned'[0] == planned[0] + 1 && |placements'| == |placements| + 1
    ensures LedgerFits([n], shape, [0], planned') && LedgerCounts(planned', placements')
  {
    hide LedgerFits, Matches, Free;
    var nodes, current := [n], [0];
    var left;
    left, planned', placements' := PlaceRoute(nodes, shape, current, r, route, allows, 1, planned, placements);
    LedgerLength(nodes, shape, current, planned');
    assert nodes[0] == n && current[0] + planned[0] == planned[0];
    OnlyNode(placements, placements', r);
    assert OnNode(placements', 0) == planned'[0] && OnNode(placements, 0) == planned[0];
  }

  lemma {:induction false} OnlyNode(ps: seq<Placement>, qs: seq<Placement>, r: nat)
    requires |ps| <= |qs| && qs[..|ps|] == ps && forall i :: |ps| <= i < |qs| ==> qs[i].node == 0
    ensures OnNode(qs, 0) == OnNode(ps, 0) + (|qs| - |ps|)
    decreases |qs| - |ps|
  {
    if |ps| < |qs| {
      TallyAppend(ps, qs[|ps|], 0, Strict(r));
      assert qs[..|ps| + 1] == ps + [qs[|ps|]];
      OnlyNode(ps + [qs[|ps|]], qs, r);
    } else {
      assert qs == ps;
    }
  }

  /** Two routes that match an empty allocation get a start each, even where its free part
      has one place only. */
  method TwoRoutesOnePlace(n: Node, shape: Shape, first: Route, second: Route, allows: PartitionSpec)
    returns (placements: seq<Placement>)
    requires Matches(n, first, allows) && Matches(n, second, allows)
    requires OpenRoom(n, shape) == 1 && TotalRoom(n, shape) >= 2
    ensures |placements| == 2 && OnNode(placements, 0) == 2 > OpenRoom(n, shape)
  {
    CapacityForm(n, shape, 0);
    CapacityForm(n, shape, 1);
    hide Matches, Free, OpenRoom, TotalRoom, Within;
    var planned := [0];
    planned, placements := StartOnOnly(n, shape, 0, first, allows, planned, []);
    hide LedgerFits;
    planned, placements := StartOnOnly(n, shape, 1, second, allows, planned, placements);
  }

  /** A start serves a demand the allocation may take. */
  predicate Serves(nodes: seq<Node>, routes: seq<Route>, accounts: seq<string>, allows: PartitionSpec, p: Placement) {
    p.node < |nodes| &&
    match p.demand
    case Strict(r) => r < |routes| && Matches(nodes[p.node], routes[r], allows)
    case Generic(g) => g < |accounts| && nodes[p.node].account == accounts[g]
  }

  ghost predicate AllServe(nodes: seq<Node>, routes: seq<Route>, accounts: seq<string>, allows: PartitionSpec,
                           ps: seq<Placement>)
  {
    forall i :: 0 <= i < |ps| ==> Serves(nodes, routes, accounts, allows, ps[i])
  }

  lemma MoreServe(nodes: seq<Node>, routes: seq<Route>, accounts: seq<string>, allows: PartitionSpec,
                  before: seq<Placement>, out: seq<Placement>)
    requires AllServe(nodes, routes, accounts, allows, before) && |before| <= |out| && out[..|before|] == before
    requires forall i :: |before| <= i < |out| ==> Serves(nodes, routes, accounts, allows, out[i])
    ensures AllServe(nodes, routes, accounts, allows, out)
  {
    forall i | 0 <= i < |out|
      ensures Serves(nodes, routes, accounts, allows, out[i])
    {
      assert i < |before| ==> out[i] == out[..|before|][i];
    }
  }

  /** Every generic need is split into starts and a rest. */
  ghost predicate GenericSplit(needs: seq<nat>, left: seq<nat>, ps: seq<Placement>) {
    |left| == |needs| && forall g :: 0 <= g < |needs| ==> needs[g] == Serving(ps, Generic(g)) + left[g]
  }

  /** Every allocation that matches the route, or has the account, is full. */
  ghost predicate RouteFull(nodes: seq<Node>, shape: Shape, current: seq<nat>, planned: seq<nat>, route: Route,
                            allows: PartitionSpec)
    requires |current| == |nodes| && |planned| == |nodes|
  {
    forall a :: 0 <= a < |nodes| && Matches(nodes[a], route, allows) ==> Full(nodes[a], shape, current[a], planned[a])
  }

  ghost predicate AccountFull(nodes: seq<Node>, shape: Shape, current: seq<nat>, planned: seq<nat>, account: string)
    requires |current| == |nodes| && |planned| == |nodes|
  {
    forall a :: 0 <= a < |nodes| && nodes[a].account == account ==> Full(nodes[a], shape, current[a], planned[a])
  }

  lemma StaysFull(nodes: seq<Node>, shape: Shape, current: seq<nat>, planned: seq<nat>, planned': seq<nat>,
                  route: Route, allows: PartitionSpec)
    requires |current| == |nodes| && |planned| == |nodes| && |planned'| == |nodes|
    requires RouteFull(nodes, shape, current, planned, route, allows)
    requires forall a :: 0 <= a < |nodes| ==> planned[a] <= planned'[a]
    ensures RouteFull(nodes, shape, current, planned', route, allows)
  {
    hide Capacity, Matches;
  }

  lemma GrantedFull(nodes: seq<Node>, shape: Shape, current: seq<nat>, planned: seq<nat>, planned': seq<nat>,
                    route: Route, allows: PartitionSpec)
    requires |current| == |nodes| && |planned| == |nodes| && |planned'| == |nodes|
    requires forall a :: 0 <= a < |nodes| && Matches(nodes[a], route, allows) ==>
      planned'[a] == planned[a] + Free(nodes[a], shape, current[a] + planned[a])
    ensures RouteFull(nodes, shape, current, planned', route, allows)
  {
    hide Free, Full, Matches;
    forall a | 0 <= a < |nodes| && Matches(nodes[a], route, allows)
      ensures Full(nodes[a], shape, current[a], planned'[a])
    {
      FullAfter(nodes[a], shape, current[a], planned[a], planned'[a]);
    }
  }

  /** The routes so far and the next one, whose rest is `rest`. */
  lemma StrictFull(nodes: seq<Node>, shape: Shape, current: seq<nat>, routes: seq<Route>, allows: PartitionSpec,
                   left: seq<nat>, r: nat, rest: nat, planned: seq<nat>, planned': seq<nat>)
    requires |current| == |nodes| && |planned| == |nodes| && |planned'| == |nodes| && |left| == |routes| && r < |routes|
    requires forall k :: 0 <= k < r && left[k] > 0 ==> RouteFull(nodes, shape, current, planned, routes[k], allows)
    requires forall a :: 0 <= a < |nodes| ==> planned[a] <= planned'[a]
    requires rest > 0 ==> forall a :: 0 <= a < |nodes| && Matches(nodes[a], routes[r], allows) ==>
      planned'[a] == planned[a] + Free(nodes[a], shape, current[a] + planned[a])
    ensures forall k :: 0 <= k < r && left[k] > 0 ==> RouteFull(nodes, shape, current, planned', routes[k], allows)
    ensures rest > 0 ==> RouteFull(nodes, shape, current, planned', routes[r], allows)
  {
    hide Free, RouteFull, Matches;
    forall k | 0 <= k < r && left[k] > 0
      ensures RouteFull(nodes, shape, current, planned', routes[k], allows)
    {
      StaysFull(nodes, shape, current, planned, planned', routes[k], allows);
    }
    if rest > 0 {
      GrantedFull(nodes, shape, current, planned, planned', routes[r], allows);
    }
  }

  /** Strict routes in order; a rest of a route means that its allocations are full. */
  method PlaceStrict(nodes: seq<Node>, shape: Shape, current: seq<nat>, routes: seq<Route>, accounts: seq<string>,
                     allows: PartitionSpec, needs: seq<nat>)
    returns (left: seq<nat>, planned: seq<nat>, placements: seq<Placement>)
    requires |current| == |nodes| && |needs| == |routes|
    ensures LedgerFits(nodes, shape, current, planned) && LedgerCounts(planned, placements)
    ensures |left| == |needs| && forall r :: 0 <= r < |needs| ==> needs[r] == Serving(placements, Strict(r)) + left[r]
    ensures forall g :: Serving(placements, Generic(g)) == 0
    ensures AllServe(nodes, routes, accounts, allows, placements)
    ensures Sum(needs) == |placements| + Sum(left)
    ensures forall r :: 0 <= r < |needs| && left[r] > 0 ==> RouteFull(nodes, shape, current, planned, routes[r], allows)
  {
    left, planned, placements := needs, Zeros(|nodes|), [];
    hide Free, Full, RouteFull, Matches, AllServe, Within;
    for r := 0 to |needs|
      invariant |planned| == |nodes|
      invariant |left| == |needs| && forall k :: 0 <= k < r && left[k] > 0 ==> RouteFull(nodes, shape, current, planned, routes[k], allows)
      invariant LedgerFits(nodes, shape, current, planned) && LedgerCounts(planned, placements)
      invariant forall k :: 0 <= k < |needs| ==> needs[k] == Serving(placements, Strict(k)) + left[k]
      invariant forall k :: r <= k < |needs| ==> left[k] == needs[k]
      invariant forall g :: Serving(placements, Generic(g)) == 0
      invariant AllServe(nodes, routes, accounts, allows, placements)
      invariant Sum(needs) == |placements| + Sum(left)
    {
      ghost var before := placements;
      var rest, planned', placements' :=
        PlaceRoute(nodes, shape, current, r, routes[r], allows, needs[r], planned, placements);
      MoreServe(nodes, routes, accounts, allows, before, placements');
      StrictFull(nodes, shape, current, routes, allows, left, r, rest, planned, planned');
      planned, placements := planned', placements';
      SumUpdate(left, r, rest);
      left := left[r := rest];
    }
  }

  /** The position of an account that has generic need, or the length. */
  method FindAccount(accounts: seq<string>, account: string) returns (g: nat)
    ensures g <= |accounts| && (g < |accounts| ==> accounts[g] == account)
    ensures g == |accounts| ==> account !in accounts
  {
    g := 0;
    while g < |accounts| && accounts[g] != account
      invariant g <= |accounts| && account !in accounts[..g]
    {
      g := g + 1;
    }
  }

  /** No account is listed twice. */
  predicate Distinct(accounts: seq<string>) {
    forall i, j :: 0 <= i < j < |accounts| ==> accounts[i] != accounts[j]
  }

  /** Allocations before `a` are full if their account has a rest. */
  ghost predicate FullUpTo(nodes: seq<Node>, shape: Shape, current: seq<nat>, planned: seq<nat>, accounts: seq<string>,
                           left: seq<nat>, a: nat)
    requires |current| == |nodes| && |planned| == |nodes| && |left| == |accounts| && a <= |nodes|
  {
    forall k, g :: 0 <= k < a && 0 <= g < |accounts| && left[g] > 0 && nodes[k].account == accounts[g] ==>
      Full(nodes[k], shape, current[k], planned[k])
  }

  lemma FullUpToNext(nodes: seq<Node>, shape: Shape, current: seq<nat>, planned: seq<nat>, accounts: seq<string>,
                     left: seq<nat>, a: nat, g: nat, give: nat)
    requires |current| == |nodes| && |planned| == |nodes| && |left| == |accounts| && a < |nodes| && g < |accounts|
    requires Distinct(accounts) && accounts[g] == nodes[a].account
    requires give == Min(Free(nodes[a], shape, current[a] + planned[a]), left[g])
    requires FullUpTo(nodes, shape, current, planned, accounts, left, a)
    ensures FullUpTo(nodes, shape, current, planned[a := planned[a] + give], accounts, left[g := left[g] - give], a + 1)
  {
    hide Free, Full;
    if give < left[g] {
      FullAfter(nodes[a], shape, current[a], planned[a], planned[a] + give);
    }
  }

  lemma FullUpToNone(nodes: seq<Node>, shape: Shape, current: seq<nat>, planned: seq<nat>, accounts: seq<string>,
                     left: seq<nat>)
    requires |current| == |nodes| && |planned| == |nodes| && |left| == |accounts|
    ensures FullUpTo(nodes, shape, current, planned, accounts, left, 0)
  {
  }

  /** An allocation whose account has no need is passed over. */
  lemma FullUpToSkip(nodes: seq<Node>, shape: Shape, current: seq<nat>, planned: seq<nat>, accounts: seq<string>,
                     left: seq<nat>, a: nat, g: nat)
    requires |current| == |nodes| && |planned| == |nodes| && |left| == |accounts| && a < |nodes| && g <= |accounts|
    requires Distinct(accounts) && FullUpTo(nodes, shape, current, planned, accounts, left, a)
    requires if g < |accounts| then accounts[g] == nodes[a].account && left[g] == 0 else nodes[a].account !in accounts
    ensures FullUpTo(nodes, shape, current, planned, accounts, left, a + 1)
  {
    hide Full;
  }

  lemma AllFull(nodes: seq<Node>, shape: Shape, current: seq<nat>, planned: seq<nat>, accounts: seq<string>,
                left: seq<nat>)
    requires |current| == |nodes| && |planned| == |nodes| && |left| == |accounts|
    requires FullUpTo(nodes, shape, current, planned, accounts, left, |nodes|)
    ensures forall g :: 0 <= g < |accounts| && left[g] > 0 ==> AccountFull(nodes, shape, current, planned, accounts[g])
  {
    hide Full;
  }

  /** Generic starts: one pass over the allocations, each for its own account, after the
      strict ones and on the same ledger. */
  method PlaceGeneric(nodes: seq<Node>, shape: Shape, current: seq<nat>, routes: seq<Route>, accounts: seq<string>,
                      allows: PartitionSpec, needs: seq<nat>, planned: seq<nat>, placements: seq<Placement>)
    returns (left: seq<nat>, planned': seq<nat>, placements': seq<Placement>)
    requires LedgerFits(nodes, shape, current, planned) && LedgerCounts(planned, placements)
    requires |needs| == |accounts| && Distinct(accounts) && forall g :: Serving(placements, Generic(g)) == 0
    requires AllServe(nodes, routes, accounts, allows, placements)
    ensures LedgerFits(nodes, shape, current, planned') && LedgerCounts(planned', placements')
    ensures GenericSplit(needs, left, placements')
    ensures forall r :: Serving(placements', Strict(r)) == Serving(placements, Strict(r))
    ensures AllServe(nodes, routes, accounts, allows, placements')
    ensures |placements| + Sum(needs) == |placements'| + Sum(left)
    ensures forall a :: 0 <= a < |nodes| ==> planned[a] <= planned'[a]
    ensures forall g :: 0 <= g < |needs| && left[g] > 0 ==> AccountFull(nodes, shape, current, planned', accounts[g])
  {
    left, planned', placements' := needs, planned, placements;
    hide LedgerFits, LedgerCounts, AllServe, Free, Full, FullUpTo, AccountFull, Distinct, Within;
    assert |current| == |nodes| && |planned| == |nodes| by { LedgerLength(nodes, shape, current, planned); }
    FullUpToNone(nodes, shape, current, planned', accounts, left);
    for a := 0 to |nodes|
      invariant |planned'| == |nodes| && |left| == |accounts|
      invariant forall k :: 0 <= k < |nodes| ==> planned[k] <= planned'[k]
      invariant FullUpTo(nodes, shape, current, planned', accounts, left, a)
      invariant LedgerFits(nodes, shape, current, planned') && LedgerCounts(planned', placements')
      invariant GenericSplit(needs, left, placements')
      invariant forall r :: Serving(placements', Strict(r)) == Serving(placements, Strict(r))
      invariant AllServe(nodes, routes, accounts, allows, placements')
      invariant |placements| + Sum(needs) == |placements'| + Sum(left)
    {
      var g := FindAccount(accounts, nodes[a].account);
      if g < |accounts| && left[g] > 0 {
        var give, out := PlaceOn(nodes[a], shape, a, Generic(g), current[a] + planned'[a], left[g], placements');
        MoreServe(nodes, routes, accounts, allows, placements', out);
        MorePlanned(nodes, shape, current, planned', placements', out, a, give);
        FullUpToNext(nodes, shape, current, planned', accounts, left, a, g, give);
        SumUpdate(left, g, left[g] - give);
        placements', planned', left := out, planned'[a := planned'[a] + give], left[g := left[g] - give];
      } else {
        FullUpToSkip(nodes, shape, current, planned', accounts, left, a, g);
      }
    }
    AllFull(nodes, shape, current, planned', accounts, left);
  }
}
