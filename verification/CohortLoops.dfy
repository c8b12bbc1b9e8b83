/** Updating cohorts one key at a time is updating them all at once. */
module PoolCohortLoops {
  import opened PoolRows
  import opened PoolRefresh

  // ----- what an update does to one row -----

  function FailedLease(l: Lease, member: bool, settle: bool, now: int): Lease {
    if !member then l
    else if settle && OwnsProject(l) then l.(state := Releasing, releaseAt := Coalesce(l.releaseAt, now))
    else if l.state.Live() then l.(state := Failed) else l
  }

  function ExpiredLease(l: Lease, member: bool, now: int): Lease {
    if !member || l.permit.Some? then l
    else if OwnsProject(l) then l.(state := Releasing, releaseAt := Coalesce(l.releaseAt, now))
    else if l.state.Live() then l.(state := Expired) else l
  }

  function Ended(r: Reservation, ends: bool, end: ReservationState): Reservation {
    if ends && r.state.Live() then r.(state := end) else r
  }

  function Blocked(x: Session, blocks: bool, now: int): Session {
    if blocks && !x.state.Over() then x.(blockedAt := Coalesce(x.blockedAt, now)) else x
  }

  /** The cohort closes a project on `s`. */
  predicate Closes(st: Pool, keys: set<CohortKey>, expire: bool, s: nat) {
    exists id :: id in st.leases && InCohort(st.reservations, st.leases[id], keys)
      && st.leases[id].session == Some(s)
      && (if expire then st.leases[id].state.Releasing? || (st.leases[id].permit.None? && OwnsProject(st.leases[id]))
          else OwnsProject(st.leases[id]))
  }

  lemma FailRows(st: Pool, keys: set<CohortKey>, settle: bool, now: int)
    ensures
      var su := FailCohorts(st, keys, settle, now);
      && su.leases.Keys == st.leases.Keys && su.reservations.Keys == st.reservations.Keys
      && su.sessions.Keys == st.sessions.Keys
      && su == st.(leases := su.leases, reservations := su.reservations, sessions := su.sessions)
      && (forall id :: id in st.leases ==>
            su.leases[id] == FailedLease(st.leases[id], InCohort(st.reservations, st.leases[id], keys), settle, now))
      && (forall r :: r in st.reservations ==>
            su.reservations[r] == Ended(st.reservations[r], st.reservations[r].key in keys, ResFailed))
  {
    hide InCohort, SessionsOf, Coalesce;
  }

  lemma FailSession(st: Pool, keys: set<CohortKey>, settle: bool, now: int, s: nat)
    requires s in st.sessions
    ensures
      var su := FailCohorts(st, keys, settle, now);
      s in su.sessions && su.sessions[s] == Blocked(st.sessions[s], settle && Closes(st, keys, false, s), now)
  {
    if settle {
      var members := CohortLeases(st, keys);
      var owners := set id | id in members && OwnsProject(st.leases[id]);
      assert s in SessionsOf(st, owners) <==> Closes(st, keys, false, s) by {
        if id :| id in owners && st.leases[id].session == Some(s) {
          assert InCohort(st.reservations, st.leases[id], keys);
        }
        if Closes(st, keys, false, s) {
          var id :| id in st.leases && InCohort(st.reservations, st.leases[id], keys)
            && st.leases[id].session == Some(s) && OwnsProject(st.leases[id]);
          assert id in owners;
        }
      }
      hide SessionsOf, CohortLeases, Closes, InCohort;
    }
  }

  lemma ExpireRows(st: Pool, keys: set<CohortKey>, now: int)
    ensures
      var su := ExpireCohorts(st, keys, now);
      && su.leases.Keys == st.leases.Keys && su.reservations.Keys == st.reservations.Keys
      && su.sessions.Keys == st.sessions.Keys
      && su == st.(leases := su.leases, reservations := su.reservations, sessions := su.sessions)
      && (forall id :: id in st.leases ==>
            su.leases[id] == ExpiredLease(st.leases[id], InCohort(st.reservations, st.leases[id], keys), now))
      && (forall r :: r in st.reservations ==>
            su.reservations[r] == Ended(st.reservations[r], st.reservations[r].key in keys
                                          && !HasPermit(st.leases, st.reservations[r].lease), ResExpired))
  {
    hide InCohort, SessionsOf, Coalesce, HasPermit;
  }

  lemma ExpireSession(st: Pool, keys: set<CohortKey>, now: int, s: nat)
    requires s in st.sessions
    ensures
      var su := ExpireCohorts(st, keys, now);
      s in su.sessions && su.sessions[s] == Blocked(st.sessions[s], Closes(st, keys, true, s), now)
  {
    var members := CohortLeases(st, keys);
    var unpermitted := set id | id in members && st.leases[id].permit.None?;
    var closing := set id | id in unpermitted && OwnsProject(st.leases[id]);
    var blocking := set id | id in members && (id in closing || st.leases[id].state.Releasing?);
    assert s in SessionsOf(st, blocking) <==> Closes(st, keys, true, s) by {
      if id :| id in blocking && st.leases[id].session == Some(s) {
        assert InCohort(st.reservations, st.leases[id], keys);
      }
      if Closes(st, keys, true, s) {
        var id :| id in st.leases && InCohort(st.reservations, st.leases[id], keys) && st.leases[id].session == Some(s)
          && (st.leases[id].state.Releasing? || (st.leases[id].permit.None? && OwnsProject(st.leases[id])));
        assert id in members;
        assert id in blocking;
      }
    }
    hide SessionsOf, CohortLeases, Closes, InCohort, HasPermit;
  }

  // ----- one key, then the rest -----

  /** The leases of one key are not those of another. */
  lemma SplitMember(rs: Reservations, l: Lease, key: CohortKey, rest: set<CohortKey>)
    requires key !in rest
    ensures InCohort(rs, l, {key} + rest) <==> InCohort(rs, l, {key}) || InCohort(rs, l, rest)
    ensures !(InCohort(rs, l, {key}) && InCohort(rs, l, rest))
  {
  }

  lemma SameMember(st: Pool, su: Pool, id: nat, keys: set<CohortKey>)
    requires id in st.leases && id in su.leases && su.leases[id].req == st.leases[id].req
    requires su.reservations.Keys == st.reservations.Keys
    requires forall r :: r in st.reservations ==> su.reservations[r].key == st.reservations[r].key
    ensures InCohort(su.reservations, su.leases[id], keys) <==> InCohort(st.reservations, st.leases[id], keys)
  {
  }

  /** The first key's update leaves the leases of the rest alone. */
  ghost predicate RestUntouched(st: Pool, su: Pool, rest: set<CohortKey>) {
    && su.leases.Keys == st.leases.Keys && su.reservations.Keys == st.reservations.Keys
    && (forall id :: id in st.leases ==> su.leases[id].req == st.leases[id].req && su.leases[id].permit == st.leases[id].permit)
    && (forall id :: id in st.leases && InCohort(st.reservations, st.leases[id], rest) ==> su.leases[id] == st.leases[id])
    && (forall r :: r in st.reservations ==>
          su.reservations[r].key == st.reservations[r].key && su.reservations[r].lease == st.reservations[r].lease)
    && (forall r :: r in st.reservations && st.reservations[r].key in rest ==> su.reservations[r] == st.reservations[r])
  }

  lemma SplitCloses(st: Pool, su: Pool, key: CohortKey, rest: set<CohortKey>, expire: bool, s: nat)
    requires key !in rest && RestUntouched(st, su, rest)
    ensures Closes(st, {key} + rest, expire, s) <==> Closes(st, {key}, expire, s) || Closes(su, rest, expire, s)
  {
    forall id | id in st.leases
      ensures InCohort(st.reservations, st.leases[id], {key} + rest)
              <==> InCohort(st.reservations, st.leases[id], {key}) || InCohort(st.reservations, st.leases[id], rest)
      ensures InCohort(su.reservations, su.leases[id], rest) <==> InCohort(st.reservations, st.leases[id], rest)
    {
      SplitMember(st.reservations, st.leases[id], key, rest);
      SameMember(st, su, id, rest);
    }
    hide InCohort, RestUntouched;
    assert forall id :: id in st.leases && InCohort(st.reservations, st.leases[id], rest) ==> su.leases[id] == st.leases[id]
      by { UntouchedLeases(st, su, rest); }
    assert su.leases.Keys == st.leases.Keys by { UntouchedLeases(st, su, rest); }
  }

  lemma UntouchedLeases(st: Pool, su: Pool, rest: set<CohortKey>)
    requires RestUntouched(st, su, rest)
    ensures su.leases.Keys == st.leases.Keys
    ensures forall id :: id in st.leases && InCohort(st.reservations, st.leases[id], rest) ==> su.leases[id] == st.leases[id]
  {
  }

  lemma FailUntouched(st: Pool, key: CohortKey, rest: set<CohortKey>, settle: bool, now: int)
    requires key !in rest
    ensures RestUntouched(st, FailCohorts(st, {key}, settle, now), rest)
  {
    FailRows(st, {key}, settle, now);
    hide FailCohorts;
    forall id | id in st.leases
      ensures !(InCohort(st.reservations, st.leases[id], {key}) && InCohort(st.reservations, st.leases[id], rest))
    {
      SplitMember(st.reservations, st.leases[id], key, rest);
    }
    hide InCohort;
  }

  lemma FailLease(st: Pool, keys: set<CohortKey>, settle: bool, now: int, id: nat)
    requires id in st.leases
    ensures
      var su := FailCohorts(st, keys, settle, now);
      id in su.leases && su.leases[id] == FailedLease(st.leases[id], InCohort(st.reservations, st.leases[id], keys), settle, now)
  {
    hide FailCohorts, InCohort, HasPermit;
    FailRows(st, keys, settle, now);
  }

  lemma FailMembers(st: Pool, keys: set<CohortKey>, settle: bool, now: int, id: nat, some: set<CohortKey>)
    requires id in st.leases
    ensures
      var su := FailCohorts(st, keys, settle, now);
      id in su.leases
      && (InCohort(su.reservations, su.leases[id], some) <==> InCohort(st.reservations, st.leases[id], some))
  {
    hide FailCohorts, InCohort, HasPermit;
    FailRows(st, keys, settle, now);
    SameMember(st, FailCohorts(st, keys, settle, now), id, some);
  }

  lemma FailSplitLease(st: Pool, key: CohortKey, rest: set<CohortKey>, settle: bool, now: int, id: nat)
    requires key !in rest && id in st.leases
    ensures
      var su := FailCohorts(st, {key}, settle, now);
      && id in su.leases && id in FailCohorts(su, rest, settle, now).leases
      && FailCohorts(su, rest, settle, now).leases[id] == FailCohorts(st, {key} + rest, settle, now).leases[id]
  {
    hide FailCohorts, InCohort;
    var su := FailCohorts(st, {key}, settle, now);
    FailLease(st, {key}, settle, now, id);
    FailLease(su, rest, settle, now, id);
    FailLease(st, {key} + rest, settle, now, id);
    SplitMember(st.reservations, st.leases[id], key, rest);
    FailMembers(st, {key}, settle, now, id, rest);
  }

  lemma FailReservation(st: Pool, keys: set<CohortKey>, settle: bool, now: int, r: nat)
    requires r in st.reservations
    ensures
      var su := FailCohorts(st, keys, settle, now);
      r in su.reservations && su.reservations[r] == Ended(st.reservations[r], st.reservations[r].key in keys, ResFailed)
  {
    hide FailCohorts, InCohort, HasPermit;
    FailRows(st, keys, settle, now);
  }

  lemma FailPermits(st: Pool, keys: set<CohortKey>, settle: bool, now: int, lease: Option<nat>)
    ensures HasPermit(FailCohorts(st, keys, settle, now).leases, lease) <==> HasPermit(st.leases, lease)
  {
    hide FailCohorts, InCohort;
    FailRows(st, keys, settle, now);
  }

  lemma FailSplitReservation(st: Pool, key: CohortKey, rest: set<CohortKey>, settle: bool, now: int, r: nat)
    requires key !in rest && r in st.reservations
    ensures
      var su := FailCohorts(st, {key}, settle, now);
      && r in su.reservations && r in FailCohorts(su, rest, settle, now).reservations
      && FailCohorts(su, rest, settle, now).reservations[r] == FailCohorts(st, {key} + rest, settle, now).reservations[r]
  {
    hide FailCohorts, HasPermit;
    var su := FailCohorts(st, {key}, settle, now);
    FailReservation(st, {key}, settle, now, r);
    FailReservation(su, rest, settle, now, r);
    FailReservation(st, {key} + rest, settle, now, r);
    FailPermits(st, {key}, settle, now, st.reservations[r].lease);
  }

  lemma FailSplitSession(st: Pool, key: CohortKey, rest: set<CohortKey>, settle: bool, now: int, s: nat)
    requires key !in rest && s in st.sessions
    ensures
      var su := FailCohorts(st, {key}, settle, now);
      && s in su.sessions && s in FailCohorts(su, rest, settle, now).sessions
      && FailCohorts(su, rest, settle, now).sessions[s] == FailCohorts(st, {key} + rest, settle, now).sessions[s]
  {
    hide FailCohorts, RestUntouched, Closes;
    var su := FailCohorts(st, {key}, settle, now);
    FailUntouched(st, key, rest, settle, now);
    FailSession(st, {key}, settle, now, s);
    FailSession(su, rest, settle, now, s);
    FailSession(st, {key} + rest, settle, now, s);
    SplitCloses(st, su, key, rest, false, s);
  }

  lemma FailSameTables(st: Pool, key: CohortKey, rest: set<CohortKey>, settle: bool, now: int)
    requires key !in rest
    ensures
      var sv := FailCohorts(FailCohorts(st, {key}, settle, now), rest, settle, now);
      var sw := FailCohorts(st, {key} + rest, settle, now);
      && sv.leases.Keys == sw.leases.Keys == st.leases.Keys && sv.sessions.Keys == sw.sessions.Keys == st.sessions.Keys
      && sv.reservations.Keys == sw.reservations.Keys == st.reservations.Keys
      && sv.tasks == sw.tasks && sv.allocations == sw.allocations && sv.cursor == sw.cursor
  {
    hide FailCohorts, InCohort;
    FailRows(st, {key}, settle, now);
    FailRows(FailCohorts(st, {key}, settle, now), rest, settle, now);
    FailRows(st, {key} + rest, settle, now);
  }

  /** The cohorts of `{key} + rest` at once, or `key` first. */
  lemma FailSplit(st: Pool, key: CohortKey, rest: set<CohortKey>, settle: bool, now: int)
    requires key !in rest
    ensures FailCohorts(FailCohorts(st, {key}, settle, now), rest, settle, now) == FailCohorts(st, {key} + rest, settle, now)
  {
    hide FailCohorts;
    var sv := FailCohorts(FailCohorts(st, {key}, settle, now), rest, settle, now);
    var sw := FailCohorts(st, {key} + rest, settle, now);
    FailSameTables(st, key, rest, settle, now);
    forall id | id in st.leases
      ensures sv.leases[id] == sw.leases[id]
    {
      FailSplitLease(st, key, rest, settle, now, id);
    }
    forall r | r in st.reservations
      ensures sv.reservations[r] == sw.reservations[r]
    {
      FailSplitReservation(st, key, rest, settle, now, r);
    }
    forall s | s in st.sessions
      ensures sv.sessions[s] == sw.sessions[s]
    {
      FailSplitSession(st, key, rest, settle, now, s);
    }
    assert sv.leases == sw.leases && sv.reservations == sw.reservations && sv.sessions == sw.sessions;
  }

  lemma ExpireUntouched(st: Pool, key: CohortKey, rest: set<CohortKey>, now: int)
    requires key !in rest
    ensures RestUntouched(st, ExpireCohorts(st, {key}, now), rest)
  {
    ExpireRows(st, {key}, now);
    hide ExpireCohorts, HasPermit;
    forall id | id in st.leases
      ensures !(InCohort(st.reservations, st.leases[id], {key}) && InCohort(st.reservations, st.leases[id], rest))
    {
      SplitMember(st.reservations, st.leases[id], key, rest);
    }
    hide InCohort;
  }

  lemma ExpireLease(st: Pool, keys: set<CohortKey>, now: int, id: nat)
    requires id in st.leases
    ensures
      var su := ExpireCohorts(st, keys, now);
      id in su.leases && su.leases[id] == ExpiredLease(st.leases[id], InCohort(st.reservations, st.leases[id], keys), now)
  {
    hide ExpireCohorts, InCohort, HasPermit;
    ExpireRows(st, keys, now);
  }

  lemma ExpireMembers(st: Pool, keys: set<CohortKey>, now: int, id: nat, some: set<CohortKey>)
    requires id in st.leases
    ensures
      var su := ExpireCohorts(st, keys, now);
      id in su.leases
      && (InCohort(su.reservations, su.leases[id], some) <==> InCohort(st.reservations, st.leases[id], some))
  {
    hide ExpireCohorts, InCohort, HasPermit;
    ExpireRows(st, keys, now);
    SameMember(st, ExpireCohorts(st, keys, now), id, some);
  }

  lemma ExpireSplitLease(st: Pool, key: CohortKey, rest: set<CohortKey>, now: int, id: nat)
    requires key !in rest && id in st.leases
    ensures
      var su := ExpireCohorts(st, {key}, now);
      && id in su.leases && id in ExpireCohorts(su, rest, now).leases
      && ExpireCohorts(su, rest, now).leases[id] == ExpireCohorts(st, {key} + rest, now).leases[id]
  {
    hide ExpireCohorts, InCohort;
    var su := ExpireCohorts(st, {key}, now);
    ExpireLease(st, {key}, now, id);
    ExpireLease(su, rest, now, id);
    ExpireLease(st, {key} + rest, now, id);
    SplitMember(st.reservations, st.leases[id], key, rest);
    ExpireMembers(st, {key}, now, id, rest);
  }

  lemma ExpireReservation(st: Pool, keys: set<CohortKey>, now: int, r: nat)
    requires r in st.reservations
    ensures
      var su := ExpireCohorts(st, keys, now);
      r in su.reservations && su.reservations[r] == Ended(st.reservations[r], st.reservations[r].key in keys && !HasPermit(st.leases, st.reservations[r].lease), ResExpired)
  {
    hide ExpireCohorts, InCohort, HasPermit;
    ExpireRows(st, keys, now);
  }

  lemma ExpirePermits(st: Pool, keys: set<CohortKey>, now: int, lease: Option<nat>)
    ensures HasPermit(ExpireCohorts(st, keys, now).leases, lease) <==> HasPermit(st.leases, lease)
  {
    hide ExpireCohorts, InCohort;
    ExpireRows(st, keys, now);
  }

  lemma ExpireSplitReservation(st: Pool, key: CohortKey, rest: set<CohortKey>, now: int, r: nat)
    requires key !in rest && r in st.reservations
    ensures
      var su := ExpireCohorts(st, {key}, now);
      && r in su.reservations && r in ExpireCohorts(su, rest, now).reservations
      && ExpireCohorts(su, rest, now).reservations[r] == ExpireCohorts(st, {key} + rest, now).reservations[r]
  {
    hide ExpireCohorts, HasPermit;
    var su := ExpireCohorts(st, {key}, now);
    ExpireReservation(st, {key}, now, r);
    ExpireReservation(su, rest, now, r);
    ExpireReservation(st, {key} + rest, now, r);
    ExpirePermits(st, {key}, now, st.reservations[r].lease);
  }

  lemma ExpireSplitSession(st: Pool, key: CohortKey, rest: set<CohortKey>, now: int, s: nat)
    requires key !in rest && s in st.sessions
    ensures
      var su := ExpireCohorts(st, {key}, now);
      && s in su.sessions && s in ExpireCohorts(su, rest, now).sessions
      && ExpireCohorts(su, rest, now).sessions[s] == ExpireCohorts(st, {key} + rest, now).sessions[s]
  {
    hide ExpireCohorts, RestUntouched, Closes;
    var su := ExpireCohorts(st, {key}, now);
    ExpireUntouched(st, key, rest, now);
    ExpireSession(st, {key}, now, s);
    ExpireSession(su, rest, now, s);
    ExpireSession(st, {key} + rest, now, s);
    SplitCloses(st, su, key, rest, true, s);
  }

  lemma ExpireSameTables(st: Pool, key: CohortKey, rest: set<CohortKey>, now: int)
    requires key !in rest
    ensures
      var sv := ExpireCohorts(ExpireCohorts(st, {key}, now), rest, now);
      var sw := ExpireCohorts(st, {key} + rest, now);
      && sv.leases.Keys == sw.leases.Keys == st.leases.Keys && sv.sessions.Keys == sw.sessions.Keys == st.sessions.Keys
      && sv.reservations.Keys == sw.reservations.Keys == st.reservations.Keys
      && sv.tasks == sw.tasks && sv.allocations == sw.allocations && sv.cursor == sw.cursor
  {
    hide ExpireCohorts, InCohort, HasPermit;
    ExpireRows(st, {key}, now);
    ExpireRows(ExpireCohorts(st, {key}, now), rest, now);
    ExpireRows(st, {key} + rest, now);
  }

  /** The cohorts of `{key} + rest` at once, or `key` first. */
  lemma ExpireSplit(st: Pool, key: CohortKey, rest: set<CohortKey>, now: int)
    requires key !in rest
    ensures ExpireCohorts(ExpireCohorts(st, {key}, now), rest, now) == ExpireCohorts(st, {key} + rest, now)
  {
    hide ExpireCohorts;
    var sv := ExpireCohorts(ExpireCohorts(st, {key}, now), rest, now);
    var sw := ExpireCohorts(st, {key} + rest, now);
    ExpireSameTables(st, key, rest, now);
    forall id | id in st.leases
      ensures sv.leases[id] == sw.leases[id]
    {
      ExpireSplitLease(st, key, rest, now, id);
    }
    forall r | r in st.reservations
      ensures sv.reservations[r] == sw.reservations[r]
    {
      ExpireSplitReservation(st, key, rest, now, r);
    }
    forall s | s in st.sessions
      ensures sv.sessions[s] == sw.sessions[s]
    {
      ExpireSplitSession(st, key, rest, now, s);
    }
    assert sv.leases == sw.leases && sv.reservations == sw.reservations && sv.sessions == sw.sessions;
  }

  // ----- no key -----

  lemma NoCohort(st: Pool, s: nat, expire: bool)
    ensures !Closes(st, {}, expire, s)
    ensures forall id :: id in st.leases ==> !InCohort(st.reservations, st.leases[id], {})
  {
  }

  lemma FailNone(st: Pool, settle: bool, now: int)
    ensures FailCohorts(st, {}, settle, now) == st
  {
    hide FailCohorts, InCohort, Closes;
    var su := FailCohorts(st, {}, settle, now);
    FailRows(st, {}, settle, now);
    NoCohort(st, 0, false);
    forall s | s in st.sessions
      ensures su.sessions[s] == st.sessions[s]
    {
      FailSession(st, {}, settle, now, s);
      NoCohort(st, s, false);
    }
    assert su.leases == st.leases && su.reservations == st.reservations && su.sessions == st.sessions;
  }

  lemma ExpireNone(st: Pool, now: int)
    ensures ExpireCohorts(st, {}, now) == st
  {
    hide ExpireCohorts, InCohort, Closes, HasPermit;
    var su := ExpireCohorts(st, {}, now);
    ExpireRows(st, {}, now);
    NoCohort(st, 0, true);
    forall s | s in st.sessions
      ensures su.sessions[s] == st.sessions[s]
    {
      ExpireSession(st, {}, now, s);
      NoCohort(st, s, true);
    }
    assert su.leases == st.leases && su.reservations == st.reservations && su.sessions == st.sessions;
  }

  // ----- what the end of one cohort means -----

  /** The Desktop is over, or waits behind its reuse barrier. */
  predicate Held(ss: Sessions, s: Option<nat>) {
    s.Some? && s.value in ss ==> ss[s.value].state.Over() || ss[s.value].blockedAt.Some?
  }

  /** Nothing outside the cohort changes, but Desktops may get their barrier armed. */
  ghost predicate OthersUntouched(st: Pool, su: Pool, key: CohortKey) {
    && su == st.(leases := su.leases, reservations := su.reservations, sessions := su.sessions)
    && su.leases.Keys == st.leases.Keys && su.reservations.Keys == st.reservations.Keys
    && su.sessions.Keys == st.sessions.Keys
    && (forall id :: id in st.leases && !InCohort(st.reservations, st.leases[id], {key}) ==> su.leases[id] == st.leases[id])
    && (forall r :: r in st.reservations && st.reservations[r].key != key ==> su.reservations[r] == st.reservations[r])
    && (forall s :: s in st.sessions ==> su.sessions[s] == st.sessions[s].(blockedAt := su.sessions[s].blockedAt))
  }

  lemma FailElsewhere(st: Pool, key: CohortKey, now: int)
    ensures OthersUntouched(st, FailCohorts(st, {key}, true, now), key)
  {
    var su := FailCohorts(st, {key}, true, now);
    FailRows(st, {key}, true, now);
    forall s | s in st.sessions
      ensures su.sessions[s] == st.sessions[s].(blockedAt := su.sessions[s].blockedAt)
    {
      FailSession(st, {key}, true, now, s);
      hide FailCohorts, Closes;
    }
    hide FailCohorts, InCohort, Closes;
  }

  lemma ExpireElsewhere(st: Pool, key: CohortKey, now: int)
    ensures OthersUntouched(st, ExpireCohorts(st, {key}, now), key)
  {
    var su := ExpireCohorts(st, {key}, now);
    ExpireRows(st, {key}, now);
    forall s | s in st.sessions
      ensures su.sessions[s] == st.sessions[s].(blockedAt := su.sessions[s].blockedAt)
    {
      ExpireSession(st, {key}, now, s);
      hide ExpireCohorts, Closes;
    }
    hide ExpireCohorts, InCohort, Closes, HasPermit;
  }

  /** The project of a member is closed: on its old Desktop, behind a barrier. */
  predicate Closing(ss: Sessions, l: Lease, m: Lease) {
    m.state.Releasing? && m.session == l.session && Held(ss, l.session)
  }

  lemma FailMember(st: Pool, key: CohortKey, now: int, id: nat)
    requires id in st.leases && InCohort(st.reservations, st.leases[id], {key})
    ensures
      var su := FailCohorts(st, {key}, true, now);
      && id in su.leases
      && (if OwnsProject(st.leases[id]) then Closing(su.sessions, st.leases[id], su.leases[id])
          else su.leases[id].state.Terminal())
  {
    hide FailCohorts, InCohort;
    assert FailCohorts(st, {key}, true, now).sessions.Keys == st.sessions.Keys by {
      FailRows(st, {key}, true, now);
    }
    FailLease(st, {key}, true, now, id);
    var s := st.leases[id].session;
    if s.Some? && s.value in st.sessions {
      FailSession(st, {key}, true, now, s.value);
      assert OwnsProject(st.leases[id]) ==> Closes(st, {key}, false, s.value);
      hide Closes;
    }
  }

  lemma ExpireMember(st: Pool, key: CohortKey, now: int, id: nat)
    requires id in st.leases && InCohort(st.reservations, st.leases[id], {key})
    ensures
      var su := ExpireCohorts(st, {key}, now);
      && id in su.leases
      && (if st.leases[id].permit.Some? then su.leases[id] == st.leases[id]
          else if OwnsProject(st.leases[id]) then Closing(su.sessions, st.leases[id], su.leases[id])
          else su.leases[id].state.Terminal())
  {
    hide ExpireCohorts, InCohort;
    assert ExpireCohorts(st, {key}, now).sessions.Keys == st.sessions.Keys by {
      ExpireRows(st, {key}, now);
    }
    ExpireLease(st, {key}, now, id);
    var s := st.leases[id].session;
    if s.Some? && s.value in st.sessions {
      ExpireSession(st, {key}, now, s.value);
      assert OwnsProject(st.leases[id]) && st.leases[id].permit.None? ==> Closes(st, {key}, true, s.value);
      hide Closes;
    }
  }

  /** A cohort that fails keeps no live reservation; its members that own a project are
      releasing on the same Desktop behind a barrier, and the others are over. */
  lemma CohortSettled(st: Pool, key: CohortKey, now: int)
    ensures
      var su := FailCohorts(st, {key}, true, now);
      && OthersUntouched(st, su, key)
      && (forall r :: r in st.reservations && st.reservations[r].key == key ==>
            r in su.reservations && !su.reservations[r].state.Live())
      && (forall id :: id in st.leases && InCohort(st.reservations, st.leases[id], {key}) ==>
            id in su.leases &&
            if OwnsProject(st.leases[id]) then Closing(su.sessions, st.leases[id], su.leases[id])
            else su.leases[id].state.Terminal())
  {
    FailElsewhere(st, key, now);
    hide OthersUntouched, InCohort, Closing, OwnsProject;
    forall r | r in st.reservations && st.reservations[r].key == key
      ensures var su := FailCohorts(st, {key}, true, now); r in su.reservations && !su.reservations[r].state.Live()
    {
      FailReservation(st, {key}, true, now, r);
    }
    hide FailCohorts;
    forall id | id in st.leases && InCohort(st.reservations, st.leases[id], {key})
      ensures
        var su := FailCohorts(st, {key}, true, now);
        && id in su.leases
        && (if OwnsProject(st.leases[id]) then Closing(su.sessions, st.leases[id], su.leases[id])
            else su.leases[id].state.Terminal())
    {
      FailMember(st, key, now, id);
    }
  }

  /** A cohort that expires keeps live only what a solve permit protects. */
  lemma CohortLapsed(st: Pool, key: CohortKey, now: int)
    ensures
      var su := ExpireCohorts(st, {key}, now);
      && OthersUntouched(st, su, key)
      && (forall r :: r in st.reservations && st.reservations[r].key == key ==>
            r in su.reservations && (su.reservations[r].state.Live() ==> HasPermit(st.leases, st.reservations[r].lease)))
      && (forall id :: id in st.leases && InCohort(st.reservations, st.leases[id], {key}) ==>
            id in su.leases &&
            if st.leases[id].permit.Some? then su.leases[id] == st.leases[id]
            else if OwnsProject(st.leases[id]) then Closing(su.sessions, st.leases[id], su.leases[id])
            else su.leases[id].state.Terminal())
  {
    ExpireElsewhere(st, key, now);
    hide OthersUntouched, InCohort, Closing, OwnsProject, HasPermit;
    forall r | r in st.reservations && st.reservations[r].key == key
      ensures
        var su := ExpireCohorts(st, {key}, now);
        r in su.reservations && (su.reservations[r].state.Live() ==> HasPermit(st.leases, st.reservations[r].lease))
    {
      ExpireReservation(st, {key}, now, r);
    }
    hide ExpireCohorts;
    forall id | id in st.leases && InCohort(st.reservations, st.leases[id], {key})
      ensures
        var su := ExpireCohorts(st, {key}, now);
        && id in su.leases
        && (if st.leases[id].permit.Some? then su.leases[id] == st.leases[id]
            else if OwnsProject(st.leases[id]) then Closing(su.sessions, st.leases[id], su.leases[id])
            else su.leases[id].state.Terminal())
    {
      ExpireMember(st, key, now, id);
    }
  }
}
