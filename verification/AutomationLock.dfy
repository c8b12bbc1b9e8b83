/** The layered, re-entrant lock around Desktop-global automation calls: a thread lock,
    a process-wide gate per path and a file lock, taken in this order. What the
    operating system and the clock decide comes in as arguments. */
module AutomationLocks {

  datatype Option<+T> = None | Some(value: T)

  // ----- the process-wide gates -----

  class Gate {
    var held: bool
    ghost var owner: SessionAutomationLock?

    ghost predicate Valid() reads this { held <==> owner != null }

    constructor ()
      ensures Valid() && !held && owner == null
    {
      held, owner := false, null;
    }
  }

  /** One gate per normalised path. */
  class GateRegistry {
    var gates: map<string, Gate>

    ghost predicate Valid()
      reads this, gates.Values
    {
      && (forall p :: p in gates ==> gates[p].Valid())
      && (forall p, q :: p in gates && q in gates && p != q ==> gates[p] != gates[q])
    }

    constructor ()
      ensures Valid() && gates == map[]
    {
      gates := map[];
    }

    /** The gate of a path is made once and never replaced. */
    method GateFor(path: string) returns (gate: Gate)
      requires Valid()
      modifies this
      ensures Valid() && path in gates && gates[path] == gate
      ensures forall p :: p in old(gates) ==> p in gates && gates[p] == old(gates[p])
      ensures path in old(gates) ==> gates == old(gates)
      ensures path !in old(gates) ==> fresh(gate) && !gate.held && gates == old(gates)[path := gate]
    {
      if path in gates {
        gate := gates[path];
      } else {
        gate := new Gate();
        gates := gates[path := gate];
      }
    }
  }

  // ----- the operating system -----

  /** What one process holds: its open descriptors with the file each names, and for each
      file it has locked the descriptor that locks it. Record locks belong to the process,
      so closing any descriptor of a file drops its lock. */
  class Kernel {
    const registry: GateRegistry
    var open: map<nat, string>
    var locks: map<string, nat>

    /** A file is locked only while its gate is owned. */
    ghost predicate Valid()
      reads this, registry, registry.gates.Values
    {
      && registry.Valid()
      && (forall p :: p in locks ==> p in registry.gates && registry.gates[p].held)
      && (forall p :: p in locks ==> locks[p] in open && open[locks[p]] == p)
    }

    constructor (registry: GateRegistry)
      requires registry.Valid()
      ensures Valid() && this.registry == registry && open == map[] && locks == map[]
    {
      this.registry := registry;
      open, locks := map[], map[];
    }

    method Open(descriptor: nat, path: string)
      requires Valid() && descriptor !in open
      modifies this`open
      ensures Valid() && open == old(open)[descriptor := path]
    {
      open := open[descriptor := path];
    }

    method Close(descriptor: nat)
      requires Valid() && descriptor in open
      modifies this
      ensures Valid() && open == old(open) - {descriptor} && locks == old(locks) - {old(open)[descriptor]}
    {
      locks := locks - {open[descriptor]};
      open := open - {descriptor};
    }
  }

  /** Opening the marker: a fresh descriptor, an error, or a file of the wrong kind. */
  datatype OpenResult = Opened(descriptor: nat) | OpenFails | WrongFile(descriptor: nat)

  datatype TryResult = Acquired | WouldBlock | TryFails

  // ----- the lock -----

  class SessionAutomationLock {
    /** The normalised path. */
    const path: string
    const gate: Gate
    const kernel: Kernel
    /** The RLock: its owner and its hold count. */
    var localOwner: Option<nat>
    var localCount: nat
    var gateHeld: bool
    var depth: nat
    var descriptor: Option<nat>
    var owner: Option<nat>
    var acquireCount: nat

    /** The gate is the one of the path. */
    ghost predicate Gated()
      reads kernel, kernel.registry, kernel.registry.gates.Values
    {
      kernel.Valid() && path in kernel.registry.gates && kernel.registry.gates[path] == gate
    }

    /** The hold count equals the depth, and every layer is held exactly while the
        depth is positive. */
    ghost predicate Valid()
      reads this, kernel, kernel.registry, kernel.registry.gates.Values
    {
      && Gated()
      && localCount == depth && (localOwner.Some? <==> depth > 0) && owner == localOwner
      && (gateHeld <==> depth > 0) && (gate.owner == this <==> depth > 0)
      && (descriptor.Some? <==> depth > 0)
      && (descriptor.Some? ==> Locks(descriptor.value))
    }

    /** The descriptor locks the file of the path for this lock. */
    ghost predicate Locks(fd: nat)
      requires kernel.Valid()
      reads kernel, kernel.registry, kernel.registry.gates.Values
    {
      path in kernel.locks && kernel.locks[path] == fd
    }

    /** The process has no lock on the file. */
    ghost predicate NoneLocked()
      requires kernel.Valid()
      reads kernel, kernel.registry, kernel.registry.gates.Values
    {
      path !in kernel.locks
    }

    constructor (path: string, kernel: Kernel)
      requires kernel.Valid()
      modifies kernel.registry
      ensures Valid() && this.path == path && this.kernel == kernel && depth == 0
      ensures forall b: SessionAutomationLock :: old(allocated(b)) && b.kernel == kernel && old(b.Valid()) ==> b.Valid()
    {
      this.path, this.kernel := path, kernel;
      var g := kernel.registry.GateFor(path);
      gate := g;
      localOwner, localCount, gateHeld, depth := None, 0, false, 0;
      descriptor, owner, acquireCount := None, None, 0;
      new;
      assert gate.owner != this;
    }

  /** Only the polling loop: the next answers of the file system, until one decides
        or the deadline passes. */
    method PollFileLock(fd: nat, tries: seq<TryResult>) returns (ok: bool)
      requires Gated() && gate.owner == this
      requires fd in kernel.open && kernel.open[fd] == path && NoneLocked()
      modifies kernel
      ensures kernel.Valid() && kernel.open == old(kernel.open)
      ensures kernel.locks == if ok then old(kernel.locks)[path := fd] else old(kernel.locks)
      ensures ok <==> Acquires(tries)
    {
      var i := 0;
      while i < |tries| && tries[i].WouldBlock?
        invariant 0 <= i <= |tries| && Acquires(tries) == Acquires(tries[i..])
      {
        assert tries[i..][1..] == tries[i + 1..];
        i := i + 1;
      }
      ok := i < |tries| && tries[i].Acquired?;
      if ok {
        kernel.locks := kernel.locks[path := fd];
      }
    }

    /** Open the marker and lock it; a descriptor that is not locked is closed again. */
    method OpenFileLock(opening: OpenResult, tries: seq<TryResult>) returns (ok: bool)
      requires Gated() && gate.owner == this && NoneLocked()
      requires opening.Opened? || opening.WrongFile? ==> opening.descriptor !in kernel.open
      modifies kernel
      ensures kernel.Valid() && (ok <==> opening.Opened? && Acquires(tries))
      ensures !ok ==> kernel.open == old(kernel.open) && kernel.locks == old(kernel.locks)
      ensures ok ==>
        && kernel.open == old(kernel.open)[opening.descriptor := path]
        && kernel.locks == old(kernel.locks)[path := opening.descriptor]
    {
      ok := false;
      if opening.WrongFile? {
        kernel.Open(opening.descriptor, path);
        kernel.Close(opening.descriptor);
      } else if opening.Opened? {
        kernel.Open(opening.descriptor, path);
        ok := PollFileLock(opening.descriptor, tries);
        if !ok {
          kernel.Close(opening.descriptor);
        }
      }
    }

    /** Take one level for `thread`. A failing call leaves every layer as it was. */
    method Acquire(thread: nat, opening: OpenResult, tries: seq<TryResult>) returns (ok: bool)
      requires Valid()
      requires opening.Opened? || opening.WrongFile? ==> opening.descriptor !in kernel.open
      modifies this, gate, kernel
      ensures forall b: SessionAutomationLock :: old(allocated(b)) && b != this && b.kernel == kernel && old(b.Valid()) ==> b.Valid()
      ensures Valid()
      ensures ok <==> CanAcquire(old(depth), old(owner), old(gate.held), thread, opening, tries)
      ensures !ok ==>
        && depth == old(depth) && owner == old(owner) && descriptor == old(descriptor)
        && localCount == old(localCount) && gateHeld == old(gateHeld)
        && gate.held == old(gate.held) && gate.owner == old(gate.owner)
        && kernel.open == old(kernel.open) && kernel.locks == old(kernel.locks)
      ensures ok ==> depth == old(depth) + 1 && owner == Some(thread) && gate.owner == this
      ensures ok && old(depth) > 0 ==>
        kernel.open == old(kernel.open) && kernel.locks == old(kernel.locks) && descriptor == old(descriptor)
      ensures ok && old(depth) == 0 ==>
        && opening.Opened? && descriptor == Some(opening.descriptor)
        && kernel.open == old(kernel.open)[opening.descriptor := path]
        && kernel.locks == old(kernel.locks)[path := opening.descriptor]
    {
      if localOwner.Some? && localOwner.value != thread {
        return false;
      }
      if depth > 0 {
        localCount, depth := localCount + 1, depth + 1;
        return true;
      }
      ok := TakeLayers(thread, opening, tries);
    }

    /** A free gate means that the process has no lock on the file. */
    method TakeGate()
      requires Gated() && !gate.held
      modifies gate, this`gateHeld
      ensures Gated() && gate.held && gate.owner == this && gateHeld && NoneLocked()
    {
      gate.held, gate.owner, gateHeld := true, this, true;
    }

    method DropGate()
      requires Gated() && gate.owner == this && NoneLocked()
      modifies gate, this`gateHeld
      ensures Gated() && !gate.held && gate.owner == null && !gateHeld
    {
      gate.held, gate.owner, gateHeld := false, null, false;
    }

    /** Nothing but the gate and the file of this path changed, and no other lock owned
        the gate. */
    twostate predicate PathOnly()
      reads kernel, kernel.registry, kernel.registry.gates.Values
    {
      && old(Gated()) && Gated() && unchanged(kernel.registry)
      && (forall p :: p in kernel.registry.gates && p != path ==> unchanged(kernel.registry.gates[p]))
      && (old(gate.owner) == null || old(gate.owner) == this) && (gate.owner == null || gate.owner == this)
      && (forall p :: p in old(kernel.locks) && p != path ==> p in kernel.locks && kernel.locks[p] == old(kernel.locks)[p])
    }

    /** While one lock owns the gate of a path, another has no descriptor of its file. */
    twostate lemma OtherStaysValid(b: SessionAutomationLock)
      requires b != this && b.kernel == kernel && old(b.Valid()) && unchanged(b) && PathOnly()
      ensures b.Valid()
    {
    }

    /** Gate, if it is free, then file; without the file the gate is given back. */
    method TakeGateAndFile(opening: OpenResult, tries: seq<TryResult>) returns (ok: bool)
      requires Gated() && !gateHeld && gate.owner != this
      requires opening.Opened? || opening.WrongFile? ==> opening.descriptor !in kernel.open
      modifies this`gateHeld, gate, kernel
      ensures forall b: SessionAutomationLock :: old(allocated(b)) && b != this && b.kernel == kernel && old(b.Valid()) ==> b.Valid()
      ensures Gated() && (ok <==> !old(gate.held) && opening.Opened? && Acquires(tries))
      ensures !ok ==> gate.held == old(gate.held) && gate.owner == old(gate.owner) && !gateHeld
                      && kernel.open == old(kernel.open) && kernel.locks == old(kernel.locks)
      ensures ok ==>
        && gateHeld && gate.owner == this && Locks(opening.descriptor)
        && kernel.open == old(kernel.open)[opening.descriptor := path]
        && kernel.locks == old(kernel.locks)[path := opening.descriptor]
    {
      if gate.held {
        return false;
      }
      TakeGate();
      ok := OpenFileLock(opening, tries);
      if !ok {
        DropGate();
      }
      forall b: SessionAutomationLock | old(allocated(b)) && b != this && b.kernel == kernel && old(b.Valid())
        ensures b.Valid()
      {
        OtherStaysValid(b);
      }
    }

    /** File, then gate. */
    method DropFileAndGate(fd: nat)
      requires Gated() && gate.owner == this && gateHeld && Locks(fd)
      modifies this`gateHeld, gate, kernel
      ensures forall b: SessionAutomationLock :: old(allocated(b)) && b != this && b.kernel == kernel && old(b.Valid()) ==> b.Valid()
      ensures Gated() && !gate.held && gate.owner == null && !gateHeld
      ensures kernel.open == old(kernel.open) - {fd} && kernel.locks == old(kernel.locks) - {path}
    {
      kernel.Close(fd);
      DropGate();
      forall b: SessionAutomationLock | old(allocated(b)) && b != this && b.kernel == kernel && old(b.Valid())
        ensures b.Valid()
      {
        OtherStaysValid(b);
      }
    }

    /** The outermost level: thread lock, gate, file; on failure back in reverse order. */
    method TakeLayers(thread: nat, opening: OpenResult, tries: seq<TryResult>) returns (ok: bool)
      requires Valid() && depth == 0
      requires opening.Opened? || opening.WrongFile? ==> opening.descriptor !in kernel.open
      modifies this, gate, kernel
      ensures forall b: SessionAutomationLock :: old(allocated(b)) && b != this && b.kernel == kernel && old(b.Valid()) ==> b.Valid()
      ensures Valid() && (ok <==> !old(gate.held) && opening.Opened? && Acquires(tries))
      ensures !ok ==>
        && depth == 0 && owner == old(owner) && gate.held == old(gate.held) && gate.owner == old(gate.owner)
        && kernel.open == old(kernel.open) && kernel.locks == old(kernel.locks)
      ensures ok ==>
        && depth == 1 && owner == Some(thread) && descriptor == Some(opening.descriptor)
        && kernel.open == old(kernel.open)[opening.descriptor := path]
        && kernel.locks == old(kernel.locks)[path := opening.descriptor]
    {
      TakeLocal(thread);
      ok := TakeGateAndFile(opening, tries);
      if ok {
        Enter(thread, opening.descriptor);
      } else {
        ReleaseLocal();
      }
    }

    method TakeLocal(thread: nat)
      modifies this`localCount, this`localOwner
      ensures localCount == old(localCount) + 1 && localOwner == Some(thread)
    {
      localOwner, localCount := Some(thread), localCount + 1;
    }

    method Enter(thread: nat, fd: nat)
      modifies this`acquireCount, this`descriptor, this`depth, this`owner
      ensures acquireCount == old(acquireCount) + 1 && descriptor == Some(fd) && depth == 1 && owner == Some(thread)
    {
      acquireCount := acquireCount + 1;
      descriptor, depth, owner := Some(fd), 1, Some(thread);
    }

    method ReleaseLocal()
      requires localCount > 0
      modifies this`localCount, this`localOwner
      ensures localCount == old(localCount) - 1
      ensures localOwner == if localCount == 0 then None else old(localOwner)
    {
      localCount := localCount - 1;
      if localCount == 0 {
        localOwner := None;
      }
    }

    /** Give one level back. Even when unlocking reports an error, no layer stays held
        below depth one. */
    method Release(thread: nat, unlockFails: bool) returns (ok: bool)
      requires Valid()
      modifies this, gate, kernel
      ensures forall b: SessionAutomationLock :: old(allocated(b)) && b != this && b.kernel == kernel && old(b.Valid()) ==> b.Valid()
      ensures Valid()
      ensures old(depth) > 0 && old(owner) == Some(thread) ==>
        && depth == old(depth) - 1 && (depth > 0 ==> owner == old(owner))
        && (ok <==> depth > 0 || !unlockFails)
        && (depth > 0 ==> descriptor == old(descriptor) && kernel.open == old(kernel.open)
                          && kernel.locks == old(kernel.locks))
        && (depth == 0 ==> !gate.held && kernel.open == old(kernel.open) - {old(descriptor).value}
                           && kernel.locks == old(kernel.locks) - {path})
      ensures !(old(depth) > 0 && old(owner) == Some(thread)) ==>
        && !ok && depth == old(depth) && owner == old(owner) && descriptor == old(descriptor)
        && gate.held == old(gate.held) && gate.owner == old(gate.owner)
        && kernel.open == old(kernel.open) && kernel.locks == old(kernel.locks)
    {
      if depth == 0 || owner != Some(thread) {
        return false;
      }
      depth := depth - 1;
      ok := true;
      if depth == 0 {
        var fd := descriptor.value;
        descriptor, owner := None, None;
        ok := !unlockFails;
        DropFileAndGate(fd);
      }
      ReleaseLocal();
    }

    /** Let go of all nesting of the owner's thread for a native solve. Only the last
        level can report an unlock error, and nothing is held then either. */
    method Suspend(thread: nat, unlockFails: bool) returns (saved: nat, ok: bool)
      requires Valid()
      modifies this, gate, kernel
      ensures forall b: SessionAutomationLock :: old(allocated(b)) && b != this && b.kernel == kernel && old(b.Valid()) ==> b.Valid()
      ensures Valid() && saved == old(depth)
      ensures old(depth) > 0 && old(owner) == Some(thread) ==>
        && depth == 0 && !gate.held && (ok <==> !unlockFails)
        && kernel.open == old(kernel.open) - {old(descriptor).value}
      ensures !(old(depth) > 0 && old(owner) == Some(thread)) ==>
        !ok && depth == old(depth) && kernel.open == old(kernel.open) && gate.held == old(gate.held)
    {
      saved := depth;
      if owner != Some(thread) || depth == 0 {
        return saved, false;
      }
      ok := true;
      while depth > 0
        invariant Valid() && ok == (depth > 0 || !unlockFails)
        invariant forall b: SessionAutomationLock :: old(allocated(b)) && b != this && b.kernel == kernel && old(b.Valid()) ==> b.Valid()
        invariant depth > 0 ==> owner == Some(thread) && descriptor == old(descriptor)
                                && kernel.open == old(kernel.open)
        invariant depth == 0 ==> !gate.held && kernel.open == old(kernel.open) - {old(descriptor).value}
      {
        ok := Release(thread, unlockFails);
      }
    }

    /** Take back exactly the nesting that was saved. Only the first level can fail, and
        then nothing is held. */
    method Resume(thread: nat, saved: nat, opening: OpenResult, tries: seq<TryResult>) returns (ok: bool)
      requires Valid() && depth == 0 && saved > 0
      requires opening.Opened? || opening.WrongFile? ==> opening.descriptor !in kernel.open
      modifies this, gate, kernel
      ensures forall b: SessionAutomationLock :: old(allocated(b)) && b != this && b.kernel == kernel && old(b.Valid()) ==> b.Valid()
      ensures Valid()
      ensures ok <==> CanAcquire(0, None, old(gate.held), thread, opening, tries)
      ensures ok ==> depth == saved && owner == Some(thread)
      ensures !ok ==> depth == 0 && gate.held == old(gate.held) && kernel.open == old(kernel.open)
                      && kernel.locks == old(kernel.locks)
    {
      ok := Acquire(thread, opening, tries);
      if !ok {
        return;
      }
      while depth < saved
        invariant Valid() && 1 <= depth <= saved && owner == Some(thread) && ok
        invariant forall b: SessionAutomationLock :: old(allocated(b)) && b != this && b.kernel == kernel && old(b.Valid()) ==> b.Valid()
        decreases saved - depth
      {
        // an owner's further levels never touch gate or file
        ok := Acquire(thread, OpenFails, []);
      }
    }
  }

  /** The file system's answers let the polling loop end with the lock. */
  predicate Acquires(tries: seq<TryResult>) {
    tries != [] && (tries[0].Acquired? || (tries[0].WouldBlock? && Acquires(tries[1..])))
  }

  /** Polling succeeds exactly when some answer grants the lock and all before it block. */
  lemma {:induction false} AcquiresMeans(tries: seq<TryResult>)
    ensures Acquires(tries) <==>
      exists k :: 0 <= k < |tries| && tries[k].Acquired? && forall i :: 0 <= i < k ==> tries[i].WouldBlock?
  {
    if tries != [] {
      AcquiresMeans(tries[1..]);
      if tries[0].WouldBlock? {
        if k :| 0 <= k < |tries[1..]| && tries[1..][k].Acquired?
                && forall i :: 0 <= i < k ==> tries[1..][i].WouldBlock? {
          assert tries[k + 1].Acquired?;
          assert forall i :: 0 <= i < k + 1 ==> tries[i].WouldBlock?;
        }
        if k :| 0 <= k < |tries| && tries[k].Acquired? && forall i :: 0 <= i < k ==> tries[i].WouldBlock? {
          assert tries[1..][k - 1].Acquired?;
          assert forall i :: 0 <= i < k - 1 ==> tries[1..][i].WouldBlock?;
        }
      }
    }
  }

  /** A thread gets the next level: it owns the lock already, or nobody does, the gate
      is open and the file system grants the file lock. */
  predicate CanAcquire(depth: nat, owner: Option<nat>, gateHeld: bool, thread: nat, opening: OpenResult,
                       tries: seq<TryResult>)
  {
    if depth > 0 then owner == Some(thread)
    else !gateHeld && opening.Opened? && Acquires(tries)
  }

  /** Two locks of one process on one path are never held together. */
  lemma NeverBothHeld(a: SessionAutomationLock, b: SessionAutomationLock)
    requires a.kernel == b.kernel && a.path == b.path && a.Valid() && b.Valid() && a.depth > 0 && b.depth > 0
    ensures a == b
  {
  }
}
