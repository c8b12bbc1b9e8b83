/** The rest of a planning pass: pending allocations, node requests, and what the whole
    pass conserves. */
module PoolPlan {
  import opened PlannerCounts
  import opened PoolPlanner

  // ----- cover by pending allocations -----

  /** What the demands take of one pending allocation together. */
  function Column(use: seq<seq<nat>>, p: nat): nat
    requires forall r :: 0 <= r < |use| ==> p < |use[r]|
  {
    if use == [] then 0 else use[0][p] + Column(use[1..], p)
  }

  lemma {:induction false} ColumnAppend(use: seq<seq<nat>>, row: seq<nat>, p: nat)
    requires p < |row| && forall r :: 0 <= r < |use| ==> p < |use[r]|
    ensures Column(use + [row], p) == Column(use, p) + row[p]
    decreases |use|
  {
    if use == [] {
      assert use + [row] == [row];
    } else {
      assert (use + [row])[1..] == use[1..] + [row];
      ColumnAppend(use[1..], row, p);
    }
  }

  /** One row for each demand, one entry for each pending allocation. */
  ghost predicate Table(use: seq<seq<nat>>, width: nat) {
    forall r :: 0 <= r < |use| ==> |use[r]| == width
  }

  lemma ColumnsAppend(use: seq<seq<nat>>, row: seq<nat>)
    requires Table(use, |row|)
    ensures Table(use + [row], |row|)
    ensures forall p :: 0 <= p < |row| ==> Column(use + [row], p) == Column(use, p) + row[p]
  {
    forall p | 0 <= p < |row|
      ensures Column(use + [row], p) == Column(use, p) + row[p]
    {
      ColumnAppend(use, row, p);
    }
  }

  /** Each route takes what covers it, from pending allocations that match it. */
  ghost predicate StrictUse(pending: seq<Node>, routes: seq<Route>, allows: PartitionSpec, covered: seq<nat>,
                            use: seq<seq<nat>>)
  {
    && |use| == |covered| && |use| <= |routes| && Table(use, |pending|)
    && (forall r :: 0 <= r < |use| ==> Sum(use[r]) == covered[r])
    && (forall r, p :: 0 <= r < |use| && 0 <= p < |pending| && use[r][p] > 0 ==> Matches(pending[p], routes[r], allows))
  }

  /** Each account takes what covers it, from its own pending allocations. */
  ghost predicate GenericUse(pending: seq<Node>, accounts: seq<string>, covered: seq<nat>, use: seq<seq<nat>>) {
    && |use| == |covered| && |use| <= |accounts| && Table(use, |pending|)
    && (forall g :: 0 <= g < |use| ==> Sum(use[g]) == covered[g])
    && (forall g, p :: 0 <= g < |use| && 0 <= p < |pending| && use[g][p] > 0 ==> pending[p].account == accounts[g])
  }

  /** The pending capacity one route consumes, allocation by allocation. */
  method CoverRoute(pending: seq<Node>, route: Route, allows: PartitionSpec, need: nat, available: seq<nat>)
    returns (left: nat, available': seq<nat>, ghost used: seq<nat>)
    requires |available| == |pending|
    ensures |available'| == |pending| && |used| == |pending| && left <= need && Sum(used) == need - left
    ensures forall p :: 0 <= p < |pending| ==> available'[p] + used[p] == available[p]
    ensures forall p :: 0 <= p < |pending| && used[p] > 0 ==> Matches(pending[p], route, allows)
    ensures left > 0 ==> forall p :: 0 <= p < |pending| && Matches(pending[p], route, allows) ==> available'[p] == 0
  {
    left, available', used := need, available, Zeros(|pending|);
    hide Matches;
    for p := 0 to |pending|
      invariant |available'| == |pending| && |used| == |pending| && left <= need && Sum(used) == need - left
      invariant forall k :: 0 <= k < |pending| ==> available'[k] + used[k] == available[k]
      invariant forall k :: p <= k < |pending| ==> used[k] == 0
      invariant forall k :: 0 <= k < |pending| && used[k] > 0 ==> Matches(pending[k], route, allows)
      invariant left > 0 ==> forall k :: 0 <= k < p && Matches(pending[k], route, allows) ==> available'[k] == 0
    {
      MatchesMeans(pending[p], route, allows);
      if left > 0 && available'[p] > 0 && pending[p].account == route.account && pending[p].name == route.node
         && (route.partition, pending[p].partition) in allows {
        var take := Min(left, available'[p]);
        SumUpdate(used, p, take);
        used := used[p := take];
        available' := available'[p := available'[p] - take];
        left := left - take;
      }
    }
  }

  /** Capacity that the rows of the table do not take is available. */
  ghost predicate Balanced(capacity: seq<nat>, use: seq<seq<nat>>, available: seq<nat>) {
    |available| == |capacity| && Table(use, |capacity|) &&
    forall p :: 0 <= p < |capacity| ==> Column(use, p) + available[p] == capacity[p]
  }

  lemma BalancedAppend(capacity: seq<nat>, use: seq<seq<nat>>, row: seq<nat>, available: seq<nat>, available': seq<nat>)
    requires Balanced(capacity, use, available) && |row| == |capacity| && |available'| == |capacity|
    requires forall p :: 0 <= p < |capacity| ==> available'[p] + row[p] == available[p]
    ensures Balanced(capacity, use + [row], available')
  {
    ColumnsAppend(use, row);
  }

  /** Nothing that matches the route is available. */
  ghost predicate Exhausted(pending: seq<Node>, route: Route, allows: PartitionSpec, available: seq<nat>)
    requires |available| == |pending|
  {
    forall p :: 0 <= p < |pending| && Matches(pending[p], route, allows) ==> available[p] == 0
  }

  /** Each route's rest is covered or uncovered, nothing is consumed twice, and a route is
      uncovered only when its pending allocations are used up. */
  method CoverStrict(pending: seq<Node>, capacity: seq<nat>, routes: seq<Route>, allows: PartitionSpec, needs: seq<nat>)
    returns (covered: seq<nat>, uncovered: seq<nat>, available: seq<nat>, ghost use: seq<seq<nat>>)
    requires |capacity| == |pending| && |needs| == |routes|
    ensures |covered| == |needs| && |uncovered| == |needs|
    ensures forall r :: 0 <= r < |needs| ==> needs[r] == covered[r] + uncovered[r]
    ensures StrictUse(pending, routes, allows, covered, use) && Balanced(capacity, use, available)
    ensures forall r :: 0 <= r < |needs| && uncovered[r] > 0 ==> Exhausted(pending, routes[r], allows, available)
  {
    covered, uncovered, available, use := [], [], capacity, [];
    hide Matches;
    for r := 0 to |needs|
      invariant |covered| == r && |uncovered| == r
      invariant forall k :: 0 <= k < r ==> needs[k] == covered[k] + uncovered[k]
      invariant StrictUse(pending, routes, allows, covered, use) && Balanced(capacity, use, available)
      invariant forall k :: 0 <= k < r && uncovered[k] > 0 ==> Exhausted(pending, routes[k], allows, available)
    {
      var left, available', row := CoverRoute(pending, routes[r], allows, needs[r], available);
      BalancedAppend(capacity, use, row, available, available');
      use := use + [row];
      available := available';
      covered, uncovered := covered + [needs[r] - left], uncovered + [left];
    }
  }

  /** Capacity of the pending allocations of one account. */
  function OfAccount(pending: seq<Node>, available: seq<nat>, account: string): nat
    requires |available| == |pending|
  {
    if pending == [] then 0
    else OfAccount(pending[1..], available[1..], account) + if pending[0].account == account then available[0] else 0
  }

  lemma {:induction false} OfAccountPrefix(pending: seq<Node>, available: seq<nat>, account: string, i: nat)
    requires |available| == |pending| && i < |pending|
    ensures OfAccount(pending[..i + 1], available[..i + 1], account)
         == OfAccount(pending[..i], available[..i], account) + if pending[i].account == account then available[i] else 0
    decreases i
  {
    if i > 0 {
      OfAccountPrefix(pending[1..], available[1..], account, i - 1);
      assert pending[1..][..i] == pending[..i + 1][1..] && available[1..][..i] == available[..i + 1][1..];
      assert pending[1..][..i - 1] == pending[..i][1..] && available[1..][..i - 1] == available[..i][1..];
    }
  }

  method AccountCapacity(pending: seq<Node>, available: seq<nat>, account: string) returns (n: nat)
    requires |available| == |pending|
    ensures n == OfAccount(pending, available, account)
  {
    n := 0;
    for i := 0 to |pending|
      invariant n == OfAccount(pending[..i], available[..i], account)
    {
      OfAccountPrefix(pending, available, account, i);
      if pending[i].account == account {
        n := n + available[i];
      }
    }
    assert pending[..|pending|] == pending && available[..|pending|] == available;
  }

  /** `n` places from the allocations of one account, in order. */
  ghost function Take(pending: seq<Node>, available: seq<nat>, account: string, n: nat): seq<nat>
    requires |available| == |pending|
  {
    if pending == [] then []
    else
      var t: nat := if pending[0].account == account then Min(available[0], n) else 0;
      [t] + Take(pending[1..], available[1..], account, n - t)
  }

  lemma {:induction false} TakeMeans(pending: seq<Node>, available: seq<nat>, account: string, n: nat)
    requires |available| == |pending| && n <= OfAccount(pending, available, account)
    ensures
      var row := Take(pending, available, account, n);
      && |row| == |pending| && Sum(row) == n
      && (forall p :: 0 <= p < |pending| ==> row[p] <= available[p] && (row[p] > 0 ==> pending[p].account == account))
      && (n == OfAccount(pending, available, account) ==>
            forall p :: 0 <= p < |pending| && pending[p].account == account ==> row[p] == available[p])
    decreases |pending|
  {
    if pending != [] {
      var t: nat := if pending[0].account == account then Min(available[0], n) else 0;
      TakeMeans(pending[1..], available[1..], account, n - t);
    }
  }

  /** The accounts before `g` take no more than is available, and nothing where the
      allocation has another account. */
  ghost predicate TakenBy(pending: seq<Node>, available: seq<nat>, accounts: seq<string>, use: seq<seq<nat>>) {
    |available| == |pending| && Table(use, |pending|) && |use| <= |accounts| &&
    forall p :: 0 <= p < |pending| ==>
      Column(use, p) <= available[p] && (pending[p].account !in accounts[..|use|] ==> Column(use, p) == 0)
  }

  lemma NotBefore(accounts: seq<string>, g: nat)
    requires g < |accounts| && Distinct(accounts)
    ensures accounts[g] !in accounts[..g] && forall a :: a in accounts[..g + 1] <==> a in accounts[..g] || a == accounts[g]
  {
    assert accounts[..g + 1] == accounts[..g] + [accounts[g]];
  }

  lemma TakenByNext(pending: seq<Node>, available: seq<nat>, accounts: seq<string>, use: seq<seq<nat>>, row: seq<nat>)
    requires TakenBy(pending, available, accounts, use) && |use| < |accounts| && Distinct(accounts) && |row| == |pending|
    requires forall p :: 0 <= p < |pending| ==>
      row[p] <= available[p] && (row[p] > 0 ==> pending[p].account == accounts[|use|])
    ensures TakenBy(pending, available, accounts, use + [row])
    ensures forall p :: 0 <= p < |pending| ==> Column(use + [row], p) == Column(use, p) + row[p]
  {
    NotBefore(accounts, |use|);
    ColumnsAppend(use, row);
    hide Distinct, Column, Table;
    var more := use + [row];
    assert |more| == |use| + 1;
    forall p | 0 <= p < |pending|
      ensures Column(more, p) <= available[p]
      ensures pending[p].account !in accounts[..|more|] ==> Column(more, p) == 0
    {
      assert Column(more, p) == Column(use, p) + row[p];
    }
  }

  /** Everything available to the account is taken. */
  ghost predicate AccountUsed(pending: seq<Node>, available: seq<nat>, account: string, use: seq<seq<nat>>)
    requires |available| == |pending| && Table(use, |pending|)
  {
    forall p :: 0 <= p < |pending| && pending[p].account == account ==> Column(use, p) >= available[p]
  }

  lemma NoneTaken(pending: seq<Node>, available: seq<nat>, accounts: seq<string>)
    requires |available| == |pending|
    ensures GenericUse(pending, accounts, [], []) && TakenBy(pending, available, accounts, [])
  {
  }

  /** The next account takes `n` places. */
  lemma AccountCovered(pending: seq<Node>, available: seq<nat>, accounts: seq<string>, covered: seq<nat>,
                       use: seq<seq<nat>>, n: nat)
    requires |available| == |pending| && |use| < |accounts| && Distinct(accounts)
    requires GenericUse(pending, accounts, covered, use) && TakenBy(pending, available, accounts, use)
    requires n <= OfAccount(pending, available, accounts[|use|])
    ensures
      var row := Take(pending, available, accounts[|use|], n);
      && |row| == |pending| && GenericUse(pending, accounts, covered + [n], use + [row])
      && TakenBy(pending, available, accounts, use + [row])
      && (n == OfAccount(pending, available, accounts[|use|]) ==>
            AccountUsed(pending, available, accounts[|use|], use + [row]))
  {
    TakeMeans(pending, available, accounts[|use|], n);
    var row := Take(pending, available, accounts[|use|], n);
    hide Take, OfAccount;
    TakenByNext(pending, available, accounts, use, row);
  }

  lemma StillUsed(pending: seq<Node>, available: seq<nat>, accounts: seq<string>, use: seq<seq<nat>>, row: seq<nat>)
    requires |available| == |pending| && Table(use, |pending|) && |row| == |pending|
    ensures forall account :: AccountUsed(pending, available, account, use) ==>
      AccountUsed(pending, available, account, use + [row])
  {
    ColumnsAppend(use, row);
  }

  /** Generic need is covered by what strict routes left of its account's pending capacity. */
  method CoverGeneric(pending: seq<Node>, available: seq<nat>, accounts: seq<string>, needs: seq<nat>)
    returns (covered: seq<nat>, uncovered: seq<nat>, ghost use: seq<seq<nat>>)
    requires |available| == |pending| && |needs| == |accounts| && Distinct(accounts)
    ensures |covered| == |needs| && |uncovered| == |needs|
    ensures forall g :: 0 <= g < |needs| ==> needs[g] == covered[g] + uncovered[g]
    ensures GenericUse(pending, accounts, covered, use) && TakenBy(pending, available, accounts, use)
    ensures forall g :: 0 <= g < |needs| && uncovered[g] > 0 ==> AccountUsed(pending, available, accounts[g], use)
  {
    covered, uncovered, use := [], [], [];
    hide GenericUse, TakenBy, AccountUsed, OfAccount, Take, Distinct;
    NoneTaken(pending, available, accounts);
    for g := 0 to |needs|
      invariant |covered| == g && |uncovered| == g && |use| == g && Table(use, |pending|)
      invariant forall k :: 0 <= k < g ==> needs[k] == covered[k] + uncovered[k]
      invariant GenericUse(pending, accounts, covered, use) && TakenBy(pending, available, accounts, use)
      invariant forall k :: 0 <= k < g && uncovered[k] > 0 ==> AccountUsed(pending, available, accounts[k], use)
    {
      var n := AccountCapacity(pending, available, accounts[g]);
      var take: nat := Min(needs[g], n);
      ghost var row := Take(pending, available, accounts[g], take);
      AccountCovered(pending, available, accounts, covered, use, take);
      StillUsed(pending, available, accounts, use, row);
      use := use + [row];
      covered, uncovered := covered + [take], uncovered + [needs[g] - take];
    }
  }

  // ----- requests for new nodes -----

  lemma CeilBounds(sessions: nat, each: nat)
    requires sessions > 0 && each > 0
    ensures
      var count := (sessions + each - 1) / each;
      && count > 0 && count <= sessions && sessions <= count * each
  {
    var count := (sessions + each - 1) / each;
    assert sessions + each - 1 == count * each + (sessions + each - 1) % each;
    assert (sessions + 1) * each == sessions * each + each;
    Monotone(1, each, sessions);
    if count > sessions {
      Monotone(sessions + 1, count, each);
    }
  }

  lemma ShareBounds(sessions: nat, count: nat, each: nat)
    requires 0 < count <= sessions <= count * each
    ensures
      var whole, extra := sessions / count, sessions % count;
      && 1 <= whole <= each && (extra > 0 ==> whole < each) && sessions == whole * count + extra
  {
    var whole, extra := sessions / count, sessions % count;
    Divided(sessions, count);
    if whole >= each {
      Monotone(each, whole, count);
      assert whole * count >= sessions;
    }
    assert (each + 1) * count == each * count + count;
    if whole > each {
      Monotone(each + 1, whole, count);
    }
  }

  lemma Divided(sessions: nat, count: nat)
    requires 0 < count <= sessions
    ensures sessions == (sessions / count) * count + sessions % count && sessions / count >= 1
  {
  }

  /** `sessions` Desktops spread evenly over as few nodes of size `each` as can hold them. */
  ghost predicate Spread(counts: seq<nat>, sessions: nat, each: nat) {
    && Sum(counts) == sessions
    && (forall i :: 0 <= i < |counts| ==> 1 <= counts[i] <= each)
    && (forall i, j :: 0 <= i < j < |counts| ==> counts[j] <= counts[i] <= counts[j] + 1)
    && |counts| * each >= sessions && (|counts| > 0 ==> (|counts| - 1) * each < sessions)
  }

  /** Uncovered sessions are requested on new nodes. */
  method NodeRequests(sessions: nat, each: nat) returns (counts: seq<nat>)
    requires each > 0
    ensures Spread(counts, sessions, each)
  {
    counts := [];
    if sessions == 0 {
      return;
    }
    var count := (sessions + each - 1) / each;
    CeilBounds(sessions, each);
    ShareBounds(sessions, count, each);
    var whole, extra := sessions / count, sessions % count;
    for i := 0 to count
      invariant |counts| == i && Sum(counts) == whole * i + Min(i, extra)
      invariant forall k :: 0 <= k < i ==> counts[k] == if k < extra then whole + 1 else whole
    {
      var share := if i < extra then whole + 1 else whole;
      SumAppend(counts, share);
      assert whole * (i + 1) == whole * i + whole;
      counts := counts + [share];
    }
    FewestNodes(sessions, each);
  }

  lemma FewestNodes(sessions: nat, each: nat)
    requires sessions > 0 && each > 0
    ensures ((sessions + each - 1) / each - 1) * each < sessions
  {
    var count := (sessions + each - 1) / each;
    assert count * each <= sessions + each - 1;
    assert (count - 1) * each == count * each - each;
  }

  // ----- the whole pass -----

  datatype Demands = Demands(routes: seq<Route>, strict: seq<nat>, accounts: seq<string>, generic: seq<nat>)
  {
    predicate Valid() { |strict| == |routes| && |generic| == |accounts| && Distinct(accounts) }
  }

  datatype Plan = Plan(placements: seq<Placement>, strictCovered: seq<nat>, genericCovered: seq<nat>,
                       strictRequests: seq<seq<nat>>, genericRequests: seq<seq<nat>>, each: nat)

  /** Every granted start is placed, covered by pending capacity, or requested on a new
      node; the requests are spread over the fewest nodes. */
  ghost predicate Conserves(granted: seq<nat>, placed: Demand -> nat, isStrict: bool, covered: seq<nat>,
                            requests: seq<seq<nat>>, each: nat)
  {
    && |covered| == |granted| && |requests| == |granted|
    && (forall k :: 0 <= k < |granted| ==>
          granted[k] == placed(if isStrict then Strict(k) else Generic(k)) + covered[k] + Sum(requests[k]))
    && (forall k :: 0 <= k < |granted| ==> Spread(requests[k], Sum(requests[k]), each))
  }

  /** Every rest is covered or requested. */
  ghost predicate Split(rests: seq<nat>, covered: seq<nat>, requests: seq<seq<nat>>, each: nat) {
    && |covered| == |rests| && |requests| == |rests|
    && (forall k :: 0 <= k < |rests| ==> rests[k] == covered[k] + Sum(requests[k]))
    && (forall k :: 0 <= k < |rests| ==> Spread(requests[k], Sum(requests[k]), each))
  }

  method RequestAll(uncovered: seq<nat>, each: nat) returns (requests: seq<seq<nat>>)
    requires each > 0
    ensures |requests| == |uncovered|
    ensures forall k :: 0 <= k < |uncovered| ==> Spread(requests[k], uncovered[k], each)
  {
    hide Spread;
    requests := [];
    for k := 0 to |uncovered|
      invariant |requests| == k && forall j :: 0 <= j < k ==> Spread(requests[j], uncovered[j], each)
    {
      var counts := NodeRequests(uncovered[k], each);
      requests := requests + [counts];
    }
  }

  lemma SpreadSum(counts: seq<nat>, sessions: nat, each: nat)
    requires Spread(counts, sessions, each)
    ensures Sum(counts) == sessions && (counts == [] ==> sessions == 0) && (sessions == 0 ==> counts == [])
  {
    assert counts != [] ==> Sum(counts) >= counts[0];
  }

  // ----- the size of a new node -----

  /** The largest of the values and a floor. */
  function Largest(values: seq<int>, floor: int): (m: int)
    ensures m >= floor && (forall i :: 0 <= i < |values| ==> values[i] <= m) && (m == floor || m in values)
  {
    if values == [] then floor else Max(values[0], Largest(values[1..], floor))
  }

  /** The node that a request is sized for: as large as any known one, 64 CPUs and 512 GB
      at least, with nothing on it. */
  function NewNode(known: seq<Node>): (n: Node)
    ensures n.cpus >= 64 && n.memory >= 512 * 1024 && n.freeCpus == n.cpus && n.freeMemory == n.memory
    ensures forall i :: 0 <= i < |known| ==> known[i].cpus <= n.cpus && known[i].memory <= n.memory
    ensures n.cpus == 64 || exists i :: 0 <= i < |known| && known[i].cpus == n.cpus
    ensures n.memory == 512 * 1024 || exists i :: 0 <= i < |known| && known[i].memory == n.memory
  {
    var allCpus := seq(|known|, i requires 0 <= i < |known| => known[i].cpus);
    var allMemory := seq(|known|, i requires 0 <= i < |known| => known[i].memory);
    assert forall i :: 0 <= i < |known| ==> allCpus[i] == known[i].cpus && allMemory[i] == known[i].memory;
    var cpus := Largest(allCpus, 64);
    var memory := Largest(allMemory, 512 * 1024);
    Node("", "", "", cpus, memory, cpus, memory)
  }

  /** How many Desktops a new node is asked to hold. */
  method NodeSize(known: seq<Node>, shape: Shape) returns (each: nat)
    ensures each >= 1 && (each > 1 ==> Affords(NewNode(known), shape, 0, each))
    ensures forall sessions: nat :: Affords(NewNode(known), shape, 0, sessions) ==> sessions <= each
  {
    each := Max(1, Capacity(NewNode(known), shape, 0));
    CapacityIsGreatest(NewNode(known), shape, 0);
  }

  /** Capacities of pending allocations, which hold no Desktop yet. */
  method PendingCapacity(pending: seq<Node>, shape: Shape) returns (capacity: seq<nat>)
    ensures |capacity| == |pending| && forall p :: 0 <= p < |pending| ==> capacity[p] == Capacity(pending[p], shape, 0)
  {
    capacity := [];
    for p := 0 to |pending|
      invariant |capacity| == p && forall k :: 0 <= k < p ==> capacity[k] == Capacity(pending[k], shape, 0)
    {
      capacity := capacity + [Capacity(pending[p], shape, 0)];
    }
  }

  /** Strict and generic demands together take no more than a pending allocation can hold. */
  ghost predicate PendingFits(pending: seq<Node>, shape: Shape, strictUse: seq<seq<nat>>, genericUse: seq<seq<nat>>) {
    Table(strictUse, |pending|) && Table(genericUse, |pending|) &&
    forall p :: 0 <= p < |pending| ==> Column(strictUse, p) + Column(genericUse, p) <= Capacity(pending[p], shape, 0)
  }

  /** The pending allocation is used up. */
  ghost predicate UsedUp(pending: seq<Node>, shape: Shape, strictUse: seq<seq<nat>>, genericUse: seq<seq<nat>>, p: nat)
    requires Table(strictUse, |pending|) && Table(genericUse, |pending|) && p < |pending|
  {
    Column(strictUse, p) + Column(genericUse, p) == Capacity(pending[p], shape, 0)
  }

  lemma PendingLedger(pending: seq<Node>, shape: Shape, capacity: seq<nat>, available: seq<nat>, accounts: seq<string>,
                      strictUse: seq<seq<nat>>, genericUse: seq<seq<nat>>)
    requires |capacity| == |pending| && forall p :: 0 <= p < |pending| ==> capacity[p] == Capacity(pending[p], shape, 0)
    requires Balanced(capacity, strictUse, available) && TakenBy(pending, available, accounts, genericUse)
    ensures Table(genericUse, |pending|) && PendingFits(pending, shape, strictUse, genericUse)
  {
    hide Capacity;
  }

  /** Which demand consumes how much of which pending allocation. */
  datatype Ledger = Ledger(strict: seq<seq<nat>>, generic: seq<seq<nat>>)

  /** A demand that is not placed in full found its live allocations full. */
  ghost predicate PlacesAll(nodes: seq<Node>, shape: Shape, allows: PartitionSpec, current: seq<nat>, planned: seq<nat>,
                            demands: Demands, strict: seq<nat>, generic: seq<nat>, placements: seq<Placement>)
  {
    && |current| == |nodes| && |planned| == |nodes|
    && |strict| == |demands.routes| && |generic| == |demands.accounts|
    && (forall r :: 0 <= r < |strict| && Serving(placements, Strict(r)) < strict[r] ==>
          RouteFull(nodes, shape, current, planned, demands.routes[r], allows))
    && (forall g :: 0 <= g < |generic| && Serving(placements, Generic(g)) < generic[g] ==>
          AccountFull(nodes, shape, current, planned, demands.accounts[g]))
  }

  /** A demand that asks for nodes found its pending allocations used up. */
  ghost predicate CoversAll(pending: seq<Node>, shape: Shape, allows: PartitionSpec, demands: Demands,
                            strictRequests: seq<seq<nat>>, genericRequests: seq<seq<nat>>, ledger: Ledger)
  {
    && Table(ledger.strict, |pending|) && Table(ledger.generic, |pending|)
    && |strictRequests| == |demands.routes| && |genericRequests| == |demands.accounts|
    && (forall r, p :: (0 <= r < |strictRequests| && strictRequests[r] != [] && 0 <= p < |pending|
                        && Matches(pending[p], demands.routes[r], allows)) ==>
          UsedUp(pending, shape, ledger.strict, ledger.generic, p))
    && (forall g, p :: (0 <= g < |genericRequests| && genericRequests[g] != [] && 0 <= p < |pending|
                        && pending[p].account == demands.accounts[g]) ==>
          UsedUp(pending, shape, ledger.strict, ledger.generic, p))
  }

  lemma StrictUsedUp(pending: seq<Node>, shape: Shape, capacity: seq<nat>, available: seq<nat>, demands: Demands,
                     allows: PartitionSpec, ledger: Ledger, r: nat, p: nat)
    requires demands.Valid() && r < |demands.routes| && p < |pending| && Matches(pending[p], demands.routes[r], allows)
    requires |capacity| == |pending| && forall p :: 0 <= p < |pending| ==> capacity[p] == Capacity(pending[p], shape, 0)
    requires Balanced(capacity, ledger.strict, available)
    requires TakenBy(pending, available, demands.accounts, ledger.generic)
    requires Exhausted(pending, demands.routes[r], allows, available)
    ensures UsedUp(pending, shape, ledger.strict, ledger.generic, p)
  {
    hide Capacity, Matches;
  }

  lemma GenericUsedUp(pending: seq<Node>, shape: Shape, capacity: seq<nat>, available: seq<nat>, demands: Demands,
                      ledger: Ledger, g: nat, p: nat)
    requires demands.Valid() && g < |demands.accounts| && p < |pending| && pending[p].account == demands.accounts[g]
    requires |capacity| == |pending| && forall p :: 0 <= p < |pending| ==> capacity[p] == Capacity(pending[p], shape, 0)
    requires Balanced(capacity, ledger.strict, available)
    requires TakenBy(pending, available, demands.accounts, ledger.generic)
    requires AccountUsed(pending, available, demands.accounts[g], ledger.generic)
    ensures UsedUp(pending, shape, ledger.strict, ledger.generic, p)
  {
    hide Capacity;
  }

  /** Rests are covered by pending allocations, the rest of that by new nodes. */
  method CoverRests(pending: seq<Node>, shape: Shape, allows: PartitionSpec, demands: Demands, strict: seq<nat>,
                    generic: seq<nat>, each: nat)
    returns (strictCovered: seq<nat>, genericCovered: seq<nat>, strictRequests: seq<seq<nat>>,
             genericRequests: seq<seq<nat>>, ghost ledger: Ledger)
    requires demands.Valid() && |strict| == |demands.routes| && |generic| == |demands.accounts| && each > 0
    ensures Split(strict, strictCovered, strictRequests, each) && Split(generic, genericCovered, genericRequests, each)
    ensures StrictUse(pending, demands.routes, allows, strictCovered, ledger.strict)
    ensures GenericUse(pending, demands.accounts, genericCovered, ledger.generic)
    ensures PendingFits(pending, shape, ledger.strict, ledger.generic)
    ensures CoversAll(pending, shape, allows, demands, strictRequests, genericRequests, ledger)
  {
    hide Capacity, Matches, StrictUse, GenericUse, TakenBy, Balanced, UsedUp, Exhausted, AccountUsed, PendingFits, Spread, Sum;
    var capacity := PendingCapacity(pending, shape);
    var strictRest, genericRest, available;
    ghost var strictUse, genericUse;
    strictCovered, strictRest, available, strictUse := CoverStrict(pending, capacity, demands.routes, allows, strict);
    BalancedShape(capacity, strictUse, available);
    genericCovered, genericRest, genericUse := CoverGeneric(pending, available, demands.accounts, generic);
    strictRequests := RequestAll(strictRest, each);
    genericRequests := RequestAll(genericRest, each);
    forall k | 0 <= k < |strict|
      ensures Sum(strictRequests[k]) == strictRest[k] && (strictRest[k] == 0 ==> strictRequests[k] == [])
    {
      SpreadSum(strictRequests[k], strictRest[k], each);
    }
    forall k | 0 <= k < |generic|
      ensures Sum(genericRequests[k]) == genericRest[k] && (genericRest[k] == 0 ==> genericRequests[k] == [])
    {
      SpreadSum(genericRequests[k], genericRest[k], each);
    }
    ledger := Ledger(strictUse, genericUse);
    PendingLedger(pending, shape, capacity, available, demands.accounts, strictUse, genericUse);
    forall r, p | (0 <= r < |strict| && strictRequests[r] != [] && 0 <= p < |pending|
                   && Matches(pending[p], demands.routes[r], allows))
      ensures UsedUp(pending, shape, ledger.strict, ledger.generic, p)
    {
      StrictUsedUp(pending, shape, capacity, available, demands, allows, ledger, r, p);
    }
    forall g, p | (0 <= g < |generic| && genericRequests[g] != [] && 0 <= p < |pending|
                   && pending[p].account == demands.accounts[g])
      ensures UsedUp(pending, shape, ledger.strict, ledger.generic, p)
    {
      GenericUsedUp(pending, shape, capacity, available, demands, ledger, g, p);
    }
  }

  lemma BalancedShape(capacity: seq<nat>, use: seq<seq<nat>>, available: seq<nat>)
    requires Balanced(capacity, use, available)
    ensures |available| == |capacity| && Table(use, |capacity|)
  {
  }

  /** Granted starts go to live allocations, strict routes first. */
  method PlaceGrants(nodes: seq<Node>, shape: Shape, allows: PartitionSpec, current: seq<nat>, demands: Demands,
                     strict: seq<nat>, generic: seq<nat>)
    returns (strictLeft: seq<nat>, genericLeft: seq<nat>, planned: seq<nat>, placements: seq<Placement>)
    requires |current| == |nodes| && demands.Valid()
    requires |strict| == |demands.routes| && |generic| == |demands.accounts|
    ensures LedgerFits(nodes, shape, current, planned) && LedgerCounts(planned, placements)
    ensures AllServe(nodes, demands.routes, demands.accounts, allows, placements)
    ensures |strictLeft| == |strict|
    ensures forall r :: 0 <= r < |strict| ==> strict[r] == Serving(placements, Strict(r)) + strictLeft[r]
    ensures GenericSplit(generic, genericLeft, placements)
    ensures Sum(strict) + Sum(generic) == |placements| + Sum(strictLeft) + Sum(genericLeft)
    ensures PlacesAll(nodes, shape, allows, current, planned, demands, strict, generic, placements)
  {
    hide RouteFull, AccountFull, LedgerFits, LedgerCounts, AllServe;
    var planned1, placements1;
    strictLeft, planned1, placements1 :=
      PlaceStrict(nodes, shape, current, demands.routes, demands.accounts, allows, strict);
    LedgerLength(nodes, shape, current, planned1);
    genericLeft, planned, placements :=
      PlaceGeneric(nodes, shape, current, demands.routes, demands.accounts, allows, generic, planned1, placements1);
    LedgerLength(nodes, shape, current, planned);
    forall r | 0 <= r < |strict| && strictLeft[r] > 0
      ensures RouteFull(nodes, shape, current, planned, demands.routes[r], allows)
    {
      StaysFull(nodes, shape, current, planned1, planned, demands.routes[r], allows);
    }
  }

  /** How a budget is shared: strict routes in order, accounts in turn with what is left. */
  ghost predicate Shares(demands: Demands, strict: seq<nat>, generic: seq<nat>, budget: nat) {
    && |strict| == |demands.strict| && |generic| == |demands.generic|
    && (forall k :: 0 <= k < |strict| ==> strict[k] <= demands.strict[k])
    && (forall i, j :: 0 <= i < j < |strict| && strict[i] < demands.strict[i] ==> strict[j] == 0)
    && (strict != demands.strict ==> generic == Zeros(|generic|))
    && (exists round: nat, cut: nat :: RoundRobin(demands.generic, generic, round, cut))
    && Sum(strict) + Sum(generic) <= budget
    && (Sum(strict) + Sum(generic) < budget ==> strict == demands.strict && generic == demands.generic)
  }

  method ShareBudget(demands: Demands, budget: nat) returns (strict: seq<nat>, generic: seq<nat>)
    requires demands.Valid()
    ensures Shares(demands, strict, generic, budget)
  {
    var left, rest;
    strict, left := GrantStrict(demands.strict, budget);
    generic, rest := GrantGeneric(demands.generic, left);
    if strict != demands.strict {
      SumZero(generic);
    }
  }

  lemma {:induction false} SumZero(s: seq<nat>)
    requires Sum(s) == 0
    ensures s == Zeros(|s|)
    decreases |s|
  {
    if s != [] {
      SumZero(s[1..]);
    }
  }

  /** Every allocation that gets a start holds all its Desktops within its CPUs and memory. */
  ghost predicate Footprints(nodes: seq<Node>, shape: Shape, current: seq<nat>, placements: seq<Placement>) {
    |current| == |nodes| &&
    forall a :: 0 <= a < |nodes| && OnNode(placements, a) > 0 ==>
      && (current[a] + OnNode(placements, a)) * (1 + shape.projectCpus * shape.slots) <= Max(0, nodes[a].cpus)
      && (current[a] + OnNode(placements, a)) * Max(1024, shape.projectMemory * shape.slots) <= Max(0, nodes[a].memory)
  }

  lemma LedgerFootprints(nodes: seq<Node>, shape: Shape, current: seq<nat>, planned: seq<nat>, ps: seq<Placement>)
    requires LedgerFits(nodes, shape, current, planned) && LedgerCounts(planned, ps)
    ensures Footprints(nodes, shape, current, ps)
  {
    forall a | 0 <= a < |nodes| && OnNode(ps, a) > 0
      ensures Within(shape, nodes[a], current[a] + OnNode(ps, a))
    {
      assert OnNode(ps, a) == planned[a];
    }
  }

  /** One pass: `counted` Desktops exist, at most `limit` are wanted. */
  method MakePlan(nodes: seq<Node>, pending: seq<Node>, current: seq<nat>, shape: Shape, allows: PartitionSpec,
                  demands: Demands, counted: nat, limit: nat)
    returns (plan: Plan, ghost strict: seq<nat>, ghost generic: seq<nat>, ghost planned: seq<nat>, ghost ledger: Ledger)
    requires |current| == |nodes| && demands.Valid()
    ensures counted + |plan.placements| <= Max(counted, limit)
    ensures Footprints(nodes, shape, current, plan.placements) && LedgerCounts(planned, plan.placements)
    ensures AllServe(nodes, demands.routes, demands.accounts, allows, plan.placements)
    ensures Shares(demands, strict, generic, Max(0, limit - counted))
    ensures plan.each >= 1 && (plan.each > 1 ==> Affords(NewNode(nodes + pending), shape, 0, plan.each))
    ensures forall sessions: nat :: Affords(NewNode(nodes + pending), shape, 0, sessions) ==> sessions <= plan.each
    ensures Conserves(strict, d => Serving(plan.placements, d), true, plan.strictCovered, plan.strictRequests, plan.each)
    ensures Conserves(generic, d => Serving(plan.placements, d), false, plan.genericCovered, plan.genericRequests, plan.each)
    ensures StrictUse(pending, demands.routes, allows, plan.strictCovered, ledger.strict)
    ensures GenericUse(pending, demands.accounts, plan.genericCovered, ledger.generic)
    ensures PendingFits(pending, shape, ledger.strict, ledger.generic)
    ensures PlacesAll(nodes, shape, allows, current, planned, demands, strict, generic, plan.placements)
    ensures CoversAll(pending, shape, allows, demands, plan.strictRequests, plan.genericRequests, ledger)
  {
    hide LedgerFits, LedgerCounts, Footprints, AllServe, PlacesAll, CoversAll, StrictUse, GenericUse, PendingFits;
    hide Spread, Affords, NewNode, RoundRobin;
    var granted, grantedGeneric := ShareBudget(demands, Max(0, limit - counted));
    var strictLeft, genericLeft, planned', placements :=
      PlaceGrants(nodes, shape, allows, current, demands, granted, grantedGeneric);
    LedgerFootprints(nodes, shape, current, planned', placements);
    var each := NodeSize(nodes + pending, shape);
    var strictCovered, genericCovered, strictRequests, genericRequests, ledger' :=
      CoverRests(pending, shape, allows, demands, strictLeft, genericLeft, each);
    plan := Plan(placements, strictCovered, genericCovered, strictRequests, genericRequests, each);
    strict, generic, planned, ledger := granted, grantedGeneric, planned', ledger';
  }
}
