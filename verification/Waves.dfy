/** Solve waves over whole runs: order, success of predecessors, and the barrier that
    cohort members wait at. */
module PoolWaves {
  import opened PoolRows
  import opened PoolInvariant
  import opened PoolSettle
  import opened PoolCalm
  import opened PoolSolve
  import opened PoolGrant
  import opened PoolSteps
  import opened PoolStepProofs
  import opened PoolSafety

  /** One seal: the Desktop is sealed before and after every step of the run. */
  predicate SealedThroughout(safe: set<string>, st: Pool, es: seq<Event>, s: nat)
    decreases |es|
  {
    && s in st.sessions && st.sessions[s].isSealed
    && (es == [] || SealedThroughout(safe, Next(safe, st, es[0]), es[1..], s))
  }

  /** Within a seal, a step either leaves the wave alone or grants the next one. */
  lemma SealedStep(safe: set<string>, st: Pool, e: Event, s: nat)
    requires Inv(safe, st) && Fair(st, e)
    requires s in st.sessions && st.sessions[s].isSealed
    requires s in Next(safe, st, e).sessions && Next(safe, st, e).sessions[s].isSealed
    ensures Inv(safe, Next(safe, st, e)) && Evolves(st, Next(safe, st, e))
    ensures
      var su := Next(safe, st, e);
      || (su.sessions[s].wave == st.sessions[s].wave && NoEntry(st, su, s))
      || Grants(safe, st, su, s)
  {
    hide Inv, Next, Fair, Licence, Evolves, NoEntry, Grants;
    StepProgress(safe, st, e);
  }

  // ----- nobody gets in, and the seal outlasts its owners -----

  lemma GrantLetsNobodyIn(safe: set<string>, st: Pool, su: Pool, s: nat)
    requires s in st.sessions && s in su.sessions && st.sessions[s].isSealed && Grants(safe, st, su, s)
    ensures NoEntry(st, su, s)
  {
  }

  lemma NoEntryTransitive(st: Pool, su: Pool, sv: Pool, s: nat)
    requires NoEntry(st, su, s) && NoEntry(su, sv, s)
    ensures NoEntry(st, sv, s)
  {
  }

  /** While a Desktop is sealed, no lease and no reservation enters it. */
  lemma {:induction false} SealedLetsNobodyIn(safe: set<string>, st: Pool, es: seq<Event>, s: nat)
    requires Inv(safe, st) && FairRun(safe, st, es) && SealedThroughout(safe, st, es, s)
    ensures NoEntry(st, Run(safe, st, es), s)
    decreases |es|
  {
    hide Inv, Next, Fair, Evolves, Grants, Holders, Waiting;
    if es != [] {
      var su := Next(safe, st, es[0]);
      SealedStep(safe, st, es[0], s);
      if Grants(safe, st, su, s) {
        GrantLetsNobodyIn(safe, st, su, s);
      }
      SealedLetsNobodyIn(safe, su, es[1..], s);
      NoEntryTransitive(st, su, Run(safe, su, es[1..]), s);
    }
  }

  lemma StaysOwner(st: Pool, su: Pool, s: nat, id: nat)
    requires LeaseRows(st.sessions, st.leases) && Evolves(st, su) && Owned(st, su)
    requires s in st.sessions && st.sessions[s].isSealed && s in su.sessions && !su.sessions[s].state.Over()
    requires id in Holders(st.leases, s) && id in Holders(su.leases, s)
    ensures su.sessions[s].isSealed
  {
    assert LeaseRow(st.sessions, st.leases[id]);
    assert OwnershipKept(su.sessions, st.leases[id], su.leases[id]);
    assert SealKept(st.sessions, su.sessions, st.leases[id], su.leases[id]);
  }

  /** A seal is cleared only when every owner of the batch has left, whatever happened
      in between. */
  lemma SealOutlastsOwners(safe: set<string>, st: Pool, es: seq<Event>, s: nat)
    requires Inv(safe, st) && FairRun(safe, st, es) && s in st.sessions && st.sessions[s].isSealed
    requires
      var su := Run(safe, st, es);
      s in su.sessions && !su.sessions[s].state.Over() && !su.sessions[s].isSealed
    ensures Holders(st.leases, s) !! Holders(Run(safe, st, es).leases, s)
  {
    var su := Run(safe, st, es);
    assert LeaseRows(st.sessions, st.leases);
    hide Inv, Next, Fair, FairRun, Run, Evolves, Owned, Holders;
    RunHistory(safe, st, es);
    forall id | id in Holders(st.leases, s)
      ensures id !in Holders(su.leases, s)
    {
      if id in Holders(su.leases, s) {
        StaysOwner(st, su, s, id);
      }
    }
  }

  /** A member of the current wave that ended without success. */
  predicate Broken(ls: Leases, id: nat, s: nat, g: nat) {
    id in ls && InWave(ls[id], s, g) && ls[id].state.Terminal() && !Finished(ls[id], s, g)
  }

  lemma StaysBroken(st: Pool, su: Pool, id: nat, s: nat, g: nat)
    requires Evolves(st, su) && Broken(st.leases, id, s, g)
    ensures Broken(su.leases, id, s, g)
  {
    assert LeaseEvolves(st.leases[id], su.leases[id]);
  }

  lemma BrokenBlocks(safe: set<string>, st: Pool, su: Pool, s: nat, id: nat)
    requires s in st.sessions && s in su.sessions && st.sessions[s].isSealed
    requires Broken(su.leases, id, s, st.sessions[s].wave)
    ensures !Grants(safe, st, su, s)
  {
  }

  /** A predecessor that ended any other way stops all further waves of the seal. */
  lemma {:induction false} BrokenWaveStopsBatch(safe: set<string>, st: Pool, es: seq<Event>, s: nat, id: nat)
    requires Inv(safe, st) && FairRun(safe, st, es) && SealedThroughout(safe, st, es, s)
    requires Broken(st.leases, id, s, st.sessions[s].wave)
    ensures s in Run(safe, st, es).sessions && Run(safe, st, es).sessions[s].wave == st.sessions[s].wave
    decreases |es|
  {
    hide Inv, Next, Fair, Evolves, NoEntry, Grants, Broken;
    if es != [] {
      var su := Next(safe, st, es[0]);
      SealedStep(safe, st, es[0], s);
      StaysBroken(st, su, id, s, st.sessions[s].wave);
      BrokenBlocks(safe, st, su, s, id);
      BrokenWaveStopsBatch(safe, su, es[1..], s, id);
    }
  }

  lemma GrantShrinks(safe: set<string>, st: Pool, su: Pool, s: nat)
    requires s in st.sessions && s in su.sessions && st.sessions[s].isSealed && Grants(safe, st, su, s)
    ensures |Waiting(su.leases, s)| < |Waiting(st.leases, s)|
    ensures su.sessions[s].wave == st.sessions[s].wave + 1
  {
    var wave := Wave(su.leases, s, su.sessions[s].wave);
    assert Waiting(su.leases, s) + wave <= Waiting(st.leases, s);
    hide Waiting, Wave;
    Subset(Waiting(su.leases, s) + wave, Waiting(st.leases, s));
  }

  /** Waves started and leases still waiting never sum to more than at the start: a
      batch of n members needs at most n waves. */
  lemma {:induction false} WaveBudget(safe: set<string>, st: Pool, es: seq<Event>, s: nat)
    requires Inv(safe, st) && FairRun(safe, st, es) && SealedThroughout(safe, st, es, s)
    ensures s in Run(safe, st, es).sessions
    ensures Run(safe, st, es).sessions[s].wave + |Waiting(Run(safe, st, es).leases, s)|
            <= st.sessions[s].wave + |Waiting(st.leases, s)|
    decreases |es|
  {
    hide Inv, Next, Fair, Evolves, Grants, Waiting;
    if es != [] {
      var su := Next(safe, st, es[0]);
      SealedStep(safe, st, es[0], s);
      if Grants(safe, st, su, s) {
        GrantShrinks(safe, st, su, s);
      } else {
        Subset(Waiting(su.leases, s), Waiting(st.leases, s));
      }
      WaveBudget(safe, su, es[1..], s);
    }
  }

  // ----- the order of permits -----

  /** The grant goes to leases that come after every member of the finished wave. */
  lemma GrantAscends(st: Pool, su: Pool, s: nat, a: nat, b: nat)
    requires Inv({}, st) && s in st.sessions && s in su.sessions && st.sessions[s].isSealed
    requires Grants({}, st, su, s)
    requires a in Wave(st.leases, s, st.sessions[s].wave) && b in Wave(su.leases, s, su.sessions[s].wave)
    ensures a < b
  {
    assert b in Waiting(st.leases, s);
    assert Ordered(st.sessions, s, a, st.leases[a], b, st.leases[b]);
  }

  lemma SomeMember(safe: set<string>, st: Pool, su: Pool, s: nat) returns (b: nat)
    requires s in st.sessions && s in su.sessions && Grants(safe, st, su, s)
    ensures b in Wave(su.leases, s, su.sessions[s].wave)
  {
    b :| b in Wave(su.leases, s, su.sessions[s].wave);
  }

  lemma SameWave(st: Pool, su: Pool, s: nat, g: nat, id: nat)
    requires Evolves(st, su) && s in st.sessions && s in su.sessions && !su.sessions[s].state.Over()
    requires g <= st.sessions[s].wave && id in st.leases && id in su.leases
    ensures id in Wave(su.leases, s, g) <==> id in Wave(st.leases, s, g)
  {
    assert PastWave(st.sessions, su.sessions, s, g);
  }

  lemma NotOverBefore(st: Pool, su: Pool, s: nat)
    requires Evolves(st, su) && s in st.sessions
    ensures s in su.sessions && (st.sessions[s].state.Over() ==> su.sessions[s].state.Over())
    ensures st.sessions[s].wave <= su.sessions[s].wave
  {
    assert SessionEvolves(st.sessions[s], su.sessions[s]);
  }

  lemma RunKeepsWave(safe: set<string>, st: Pool, es: seq<Event>, s: nat)
    requires Inv(safe, st) && FairRun(safe, st, es) && s in st.sessions
    ensures s in Run(safe, st, es).sessions && st.sessions[s].wave <= Run(safe, st, es).sessions[s].wave
    ensures st.sessions[s].state.Over() ==> Run(safe, st, es).sessions[s].state.Over()
  {
    hide Inv, Next, Fair, Evolves;
    RunHistory(safe, st, es);
    NotOverBefore(st, Run(safe, st, es), s);
  }

  /** Within one seal, permits of later waves go to larger lease ids. */
  lemma {:induction false} PermitsAscend(st: Pool, es: seq<Event>, s: nat, a: nat, b: nat)
    requires Inv({}, st) && FairRun({}, st, es) && SealedThroughout({}, st, es, s)
    requires s in Run({}, st, es).sessions && !Run({}, st, es).sessions[s].state.Over()
    requires st.sessions[s].wave < Run({}, st, es).sessions[s].wave
    requires a in Wave(st.leases, s, st.sessions[s].wave)
    requires b in Wave(Run({}, st, es).leases, s, Run({}, st, es).sessions[s].wave)
    ensures a < b
    decreases |es|
  {
    hide Inv, Next, Fair, Evolves, NoEntry, Grants, Wave;
    assert es != [];
    var su := Next({}, st, es[0]);
    SealedStep({}, st, es[0], s);
    RunKeepsWave({}, su, es[1..], s);
    NextLive(st, su, a, s);
    if Grants({}, st, su, s) {
      var c := SomeMember({}, st, su, s);
      GrantAscends(st, su, s, a, c);
      GrantRaises({}, st, su, s);
      if su.sessions[s].wave < Run({}, st, es).sessions[s].wave {
        PermitsAscend(su, es[1..], s, c, b);
      } else {
        RunHistory({}, su, es[1..]);
        NewWaveMember(su, Run({}, su, es[1..]), s, b);
        GrantAscends(st, su, s, a, b);
      }
    } else {
      SameWave(st, su, s, st.sessions[s].wave, a);
      PermitsAscend(su, es[1..], s, a, b);
    }
  }

  lemma NextLive(st: Pool, su: Pool, a: nat, s: nat)
    requires Evolves(st, su) && s in st.sessions && a in Wave(st.leases, s, st.sessions[s].wave)
    ensures a in st.leases && a in su.leases
  {
  }

  lemma GrantRaises(safe: set<string>, st: Pool, su: Pool, s: nat)
    requires s in st.sessions && s in su.sessions && Grants(safe, st, su, s)
    ensures su.sessions[s].wave == st.sessions[s].wave + 1
  {
  }

  lemma NewWaveMember(su: Pool, sv: Pool, s: nat, b: nat)
    requires Evolves(su, sv) && s in su.sessions && s in sv.sessions && !sv.sessions[s].state.Over()
    requires b in Wave(sv.leases, s, su.sessions[s].wave)
    ensures b in Wave(su.leases, s, su.sessions[s].wave)
  {
    assert PastWave(su.sessions, sv.sessions, s, su.sessions[s].wave);
  }

  // ----- success of predecessors -----

  lemma GrantNeedsSuccess(safe: set<string>, st: Pool, su: Pool, s: nat)
    requires s in st.sessions && s in su.sessions && st.sessions[s].isSealed && Grants(safe, st, su, s)
    ensures WaveSucceeded(su.leases, s, st.sessions[s].wave)
  {
  }

  lemma SuccessLasts(su: Pool, sv: Pool, s: nat, g: nat)
    requires Evolves(su, sv) && s in su.sessions && s in sv.sessions && !sv.sessions[s].state.Over()
    requires g <= su.sessions[s].wave && WaveSucceeded(su.leases, s, g)
    ensures WaveSucceeded(sv.leases, s, g)
  {
    forall id | id in sv.leases && InWave(sv.leases[id], s, g)
      ensures Finished(sv.leases[id], s, g)
    {
      assert PastWave(su.sessions, sv.sessions, s, g);
      assert LeaseEvolves(su.leases[id], sv.leases[id]);
    }
  }

  /** When a later wave of the seal runs, every member of an earlier one was released
      by the host with a completion marker for exactly that Desktop and wave. */
  lemma {:induction false} EarlierWavesSucceeded(safe: set<string>, st: Pool, es: seq<Event>, s: nat)
    requires Inv(safe, st) && FairRun(safe, st, es) && SealedThroughout(safe, st, es, s)
    requires s in Run(safe, st, es).sessions && !Run(safe, st, es).sessions[s].state.Over()
    requires st.sessions[s].wave < Run(safe, st, es).sessions[s].wave
    ensures WaveSucceeded(Run(safe, st, es).leases, s, st.sessions[s].wave)
    decreases |es|
  {
    hide Inv, Next, Fair, Evolves, NoEntry, Grants, WaveSucceeded;
    assert es != [];
    var su := Next(safe, st, es[0]);
    SealedStep(safe, st, es[0], s);
    if Grants(safe, st, su, s) {
      GrantNeedsSuccess(safe, st, su, s);
      GrantRaises(safe, st, su, s);
      RunHistory(safe, su, es[1..]);
      SuccessLasts(su, Run(safe, su, es[1..]), s, st.sessions[s].wave);
    } else {
      EarlierWavesSucceeded(safe, su, es[1..], s);
    }
  }

  // ----- the native-pipeline barrier -----

  function MarkedIn(ls: Leases, s: nat, g: nat): set<nat> {
    set id | id in Wave(ls, s, g) && ls[id].marker == Some(Marker(s, g))
  }

  function StoppedIn(ls: Leases, s: nat, g: nat): set<nat> {
    set id | id in Wave(ls, s, g) && ls[id].marker != Some(Marker(s, g)) && !ls[id].state.Active?
  }

  datatype PipelineView = PipelineView(completed: bool, expected: nat, marked: nat, granted: bool, broken: bool)

  /** What a client reads about its cohort. */
  function View(st: Pool, id: nat): PipelineView
    requires id in st.leases
  {
    var l := st.leases[id];
    if l.session.None? || l.session.value == 0 || l.permit.None? || l.permit.value == 0
    then PipelineView(false, 0, 0, false, false)
    else
      var s, g := l.session.value, l.permit.value;
      var completed := l.marker == Some(Marker(s, g));
      var expected := |Wave(st.leases, s, g)|;
      var marked := |MarkedIn(st.leases, s, g)|;
      var granted := completed && expected > 0 && marked == expected;
      PipelineView(completed, expected, marked, granted, !granted && |StoppedIn(st.leases, s, g)| > 0)
  }

  /** The count comparison means that every member marked. */
  lemma ViewGranted(st: Pool, id: nat)
    requires id in st.leases
    ensures View(st, id).granted <==>
      var l := st.leases[id];
      && l.session.Some? && l.session.value != 0 && l.permit.Some? && l.permit.value != 0
      && forall m :: m in Wave(st.leases, l.session.value, l.permit.value) ==>
           st.leases[m].marker == Some(Marker(l.session.value, l.permit.value))
  {
    var l := st.leases[id];
    if l.session.Some? && l.session.value != 0 && l.permit.Some? && l.permit.value != 0 {
      var s, g := l.session.value, l.permit.value;
      assert id in Wave(st.leases, s, g);
      var marked, wave := MarkedIn(st.leases, s, g), Wave(st.leases, s, g);
      assert marked <= wave;
      if |marked| == |wave| {
        SameSize(marked, wave);
        assert forall m :: m in wave ==> m in marked;
      } else {
        assert marked != wave;
        var m :| m in wave && m !in marked;
      }
    }
  }

  lemma SameSize<T>(a: set<T>, b: set<T>)
    requires a <= b && |a| == |b|
    ensures a == b
  {
    assert |b - a| == |b| - |a|;
  }

  /** From the grant on, while the Desktop lasts, the counted cohort is exactly the
      set that was granted, and an open barrier means that each of them marked
      completion for this Desktop and this wave. */
  lemma BarrierIsSound(safe: set<string>, st: Pool, su: Pool, es: seq<Event>, s: nat, id: nat)
    requires s in st.sessions && s in su.sessions && Grants(safe, st, su, s)
    requires Inv(safe, su) && FairRun(safe, su, es)
    requires
      var sv := Run(safe, su, es);
      && s in sv.sessions && !sv.sessions[s].state.Over()
      && id in sv.leases && InWave(sv.leases[id], s, su.sessions[s].wave)
    ensures
      var sv := Run(safe, su, es);
      var g := su.sessions[s].wave;
      && Wave(sv.leases, s, g) == Wave(su.leases, s, g)
      && (View(sv, id).granted ==>
            forall m :: m in Wave(su.leases, s, g) ==> sv.leases[m].marker == Some(Marker(s, g)))
  {
    hide Inv, Next, Fair, FairRun, Run, View, Grants;
    var sv := Run(safe, su, es);
    var g := su.sessions[s].wave;
    RunHistory(safe, su, es);
    assert PastWave(su.sessions, sv.sessions, s, g);
    forall m
      ensures m in Wave(sv.leases, s, g) <==> m in Wave(su.leases, s, g)
    {
      assert m in sv.leases ==> (InWave(sv.leases[m], s, g) <==> m in su.leases && InWave(su.leases[m], s, g));
    }
    ViewGranted(sv, id);
  }

  /** A marker for another Desktop than the one the lease solves on never counts, and
      can only come from a Desktop that is over. */
  lemma OldMarkersNeverCount(safe: set<string>, st: Pool, id: nat)
    requires Reachable(safe, st) && id in st.leases && st.leases[id].marker.Some?
    requires st.leases[id].session.Some? && st.leases[id].session.value in st.sessions
    requires !st.sessions[st.leases[id].session.value].state.Over()
    ensures
      var l := st.leases[id];
      var m := l.marker.value;
      if Some(m.session) == l.session then l.permit == Some(m.wave)
      else m.session in st.sessions && st.sessions[m.session].state.Over() && !View(st, id).completed
  {
    hide Reachable;
    ReachableInv(safe, st);
    assert LeaseRow(st.sessions, st.leases[id]);
  }

  // ----- a broken barrier stays closed -----

  /** A member that will never mark: it stopped solving without a marker. */
  predicate Stopped(ls: Leases, id: nat, s: nat, g: nat) {
    id in ls && InWave(ls[id], s, g) && ls[id].marker != Some(Marker(s, g)) && !ls[id].state.Active?
  }

  lemma StoppedStays(st: Pool, su: Pool, id: nat, s: nat, g: nat)
    requires LeaseRows(st.sessions, st.leases) && Evolves(st, su) && Owned(st, su)
    requires Stopped(st.leases, id, s, g) && s in su.sessions && !su.sessions[s].state.Over()
    ensures Stopped(su.leases, id, s, g)
  {
    assert LeaseRow(st.sessions, st.leases[id]);
    assert LeaseEvolves(st.leases[id], su.leases[id]);
    assert OwnershipKept(su.sessions, st.leases[id], su.leases[id]);
    assert PastWave(st.sessions, su.sessions, s, g) by {
      assert SessionEvolves(st.sessions[s], su.sessions[s]);
    }
  }

  /** Once a member stopped without a marker, no run opens the barrier of its cohort. */
  lemma BrokenBarrierStaysClosed(safe: set<string>, st: Pool, es: seq<Event>, s: nat, g: nat, id: nat, other: nat)
    requires Inv(safe, st) && FairRun(safe, st, es) && Stopped(st.leases, id, s, g)
    requires
      var sv := Run(safe, st, es);
      && s in sv.sessions && !sv.sessions[s].state.Over()
      && other in sv.leases && InWave(sv.leases[other], s, g)
    ensures !View(Run(safe, st, es), other).granted
  {
    var sv := Run(safe, st, es);
    assert LeaseRows(st.sessions, st.leases);
    hide Inv, Next, Fair, FairRun, Run, View;
    RunHistory(safe, st, es);
    StoppedStays(st, sv, id, s, g);
    assert id in Wave(sv.leases, s, g);
    ViewGranted(sv, other);
  }
}
