/** The terms in which outcomes of transactions are stated: columns of rows, and nothing
    that a transaction computes on the way. */
module PoolTerms {
  import opened PoolRows

  /** The lease occupies a slot of `s`: offered, taken, or not yet closed there. */
  predicate OwnsSlot(l: Lease, s: nat) {
    l.session == Some(s)
    && (l.state.Offered? || l.state.Leased? || l.state.Attaching? || l.state.Active? || l.state.Releasing?)
  }

  predicate LeaseEnded(l: Lease) {
    l.state.Released? || l.state.Failed? || l.state.Cancelled? || l.state.Expired?
  }

  predicate Vacant(ls: Leases, s: nat) {
    forall id :: id in ls ==> !OwnsSlot(ls[id], s)
  }

  function Owners(ls: Leases, s: nat): set<nat> {
    set id | id in ls && OwnsSlot(ls[id], s)
  }

  /** The reservation stands: its slot is held, or its lease has taken it. */
  predicate Stands(r: Reservation) {
    r.state.Reserved? || r.state.Claimed? || r.state.Consumed?
  }

  /** The slot of the reservation is kept free for its task. */
  predicate KeepsSlot(r: Reservation) {
    r.state.Reserved? || r.state.Claimed?
  }

  /** The Desktop takes projects. */
  predicate Works(x: Session) {
    x.state.Ready? || x.state.Busy?
  }

  predicate InService(allocations: Allocations, a: nat) {
    a in allocations && (allocations[a].state.Warm? || allocations[a].state.InUse?)
  }

  predicate TaskEnded(tasks: Tasks, t: nat) {
    t in tasks && tasks[t].status.TaskTerminal?
  }

  /** Armed at the time it was armed before, or now. */
  function Armed(before: Option<int>, now: int): Option<int> {
    if before.None? then Some(now) else before
  }

  lemma SameTerms()
    ensures forall l: Lease, s: nat :: OwnsSlot(l, s) <==> Holder(l, s)
    ensures forall l: Lease :: LeaseEnded(l) <==> l.state.Terminal()
    ensures forall r: Reservation :: Stands(r) <==> r.state.Live()
    ensures forall r: Reservation :: KeepsSlot(r) <==> r.state.Held()
    ensures forall x: Session :: Works(x) <==> x.state.Assignable()
  {
  }

  lemma SameOwners(ls: Leases, s: nat)
    ensures Owners(ls, s) == Holders(ls, s) && (Vacant(ls, s) <==> NoHolder(ls, s))
  {
  }
}
