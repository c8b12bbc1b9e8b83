/** Coalesced heartbeats: an unchanged heartbeat is not written while the stored one
    is fresh. Instants are real; a stored timestamp has whole seconds. */
module PoolHeartbeats {
  import opened PoolRows
  import opened PoolReconcile

  const PERSIST_MAX: int := 30

  function Min(a: int, b: int): int { if a <= b then a else b }
  function Max(a: int, b: int): int { if a >= b then a else b }

  /** Seconds an unchanged heartbeat may go unwritten; the identity spreads writers. */
  function PersistInterval(timeout: int, identity: nat): (r: int)
    ensures 1 <= r <= Max(1, Min(30, timeout / 3))
    ensures r >= Max(1, Min(30, timeout / 3)) - 6
    ensures timeout >= 3 ==> 3 * r <= timeout
  {
    var ceiling := Max(1, Min(PERSIST_MAX, Max(1, timeout / 3)));
    var spread := Min(6, ceiling - 1);
    ceiling - (if spread == 0 then 0 else identity % (spread + 1))
  }

  predicate IsFresh(stored: int, now: real, interval: int) {
    0.0 <= now - stored as real < Max(1, interval) as real
  }

  /** The two columns a heartbeat writes. */
  datatype Stored = Stored(heartbeat: int, expires: int)

  function Written(now: real, ttl: int): Stored {
    Stored(now.Floor, now.Floor + ttl)
  }

  /** One heartbeat of an accepted lease whose phase did not change. */
  function Beat(x: Stored, now: real, interval: int, ttl: int): Stored {
    if IsFresh(x.heartbeat, now, interval) then x else Written(now, ttl)
  }

  function Beats(x: Stored, times: seq<real>, interval: int, ttl: int): Stored
    decreases |times|
  {
    if times == [] then x else Beats(Beat(x, times[0], interval, ttl), times[1..], interval, ttl)
  }

  /** The stored row lags the last heartbeat by less than one interval. */
  predicate Lags(x: Stored, last: real, interval: int, ttl: int) {
    && last - interval as real < x.heartbeat as real <= last
    && x.expires == x.heartbeat + ttl
  }

  lemma BeatLags(x: Stored, now: real, interval: int, ttl: int)
    requires interval >= 1 && x.expires == x.heartbeat + ttl
    ensures Lags(Beat(x, now, interval, ttl), now, interval, ttl)
  {
  }

  lemma {:induction false} BeatsLag(x: Stored, times: seq<real>, interval: int, ttl: int)
    requires interval >= 1 && x.expires == x.heartbeat + ttl && times != []
    ensures Lags(Beats(x, times, interval, ttl), times[|times| - 1], interval, ttl)
    decreases |times|
  {
    BeatLags(x, times[0], interval, ttl);
    if |times| > 1 {
      BeatsLag(Beat(x, times[0], interval, ttl), times[1..], interval, ttl);
    }
  }

  /** Writing every heartbeat with the interval taken off its lifetime expires no later
      than coalescing does, and coalescing expires no later than writing every one. */
  lemma CoalescingRefinesWriting(x: Stored, times: seq<real>, interval: int, ttl: int)
    requires interval >= 1 && x.expires == x.heartbeat + ttl && times != []
    ensures
      var last := times[|times| - 1];
      Written(last, ttl - interval).expires <= Beats(x, times, interval, ttl).expires <= Written(last, ttl).expires
  {
    BeatsLag(x, times, interval, ttl);
  }

  /** An accepted lease that beats at most `gap` seconds apart is never expired by a
      reconcile pass, although unchanged heartbeats are skipped. */
  lemma NeverExpires(cfg: Config, l: Lease, times: seq<real>, identity: nat, gap: real, pass: real)
    requires l.state.Attaching? || l.state.Active?
    requires l.expires == l.heartbeat + cfg.leaseTtl && times != []
    requires PersistInterval(cfg.leaseTtl, identity) as real + gap <= cfg.leaseTtl as real
    requires pass <= times[|times| - 1] + gap
    ensures
      var x := Beats(Stored(l.heartbeat, l.expires), times, PersistInterval(cfg.leaseTtl, identity), cfg.leaseTtl);
      !Lapsed(cfg, l.(heartbeat := x.heartbeat, expires := x.expires), pass.Floor)
  {
    BeatsLag(Stored(l.heartbeat, l.expires), times, PersistInterval(cfg.leaseTtl, identity), cfg.leaseTtl);
  }

  /** The same for a Desktop: its host's beats keep it from being called silent. */
  lemma NeverUnhealthy(cfg: Config, x: Session, times: seq<real>, identity: nat, gap: real, pass: real)
    requires x.heartbeat.Some? && times != []
    requires PersistInterval(cfg.sessionTimeout, identity) as real + gap <= cfg.sessionTimeout as real
    requires pass <= times[|times| - 1] + gap
    ensures
      var b := Beats(Stored(x.heartbeat.value, x.heartbeat.value + cfg.sessionTimeout), times,
                     PersistInterval(cfg.sessionTimeout, identity), cfg.sessionTimeout);
      LastSeen(x.(heartbeat := Some(b.heartbeat))) >= pass.Floor - cfg.sessionTimeout
  {
    BeatsLag(Stored(x.heartbeat.value, x.heartbeat.value + cfg.sessionTimeout), times,
             PersistInterval(cfg.sessionTimeout, identity), cfg.sessionTimeout);
  }
}
