/** The lease manager's methods; each runs under the manager's lock. A lease is a
    record the manager overwrites in its dictionary. */
module LeaseManager {
  import opened Common
  import opened Leases

  class TenantLeaseManager {
    const worlds: nat
    const ttl: real
    var leases: Pool

    ghost predicate Valid(now: real)
      reads this
    {
      ttl > 0.0 && Inv(leases, worlds, ttl, now)
    }

    constructor (worlds: nat, ttl: real, now: real)
      requires ttl > 0.0
      ensures Valid(now) && leases == map[] && this.worlds == worlds && this.ttl == ttl
    {
      this.worlds, this.ttl, leases := worlds, ttl, map[];
      new;
      assert OneLease(map[], now);
    }

    /** The walk over the dictionary for the session's live lease, in any order. */
    method FindHeld(session: string, now: real) returns (held: Option<string>)
      requires Valid(now)
      ensures held == HeldKey(leases, session, now)
    {
      held := None;
      var left := leases.Keys;
      while left != {} && held.None?
        invariant left <= leases.Keys
        invariant held.Some? ==> HoldsAt(leases, held.value, session, now)
        invariant held.None? ==> forall k :: HoldsAt(leases, k, session, now) ==> k in left
        decreases |left|
      {
        var k :| k in left;
        if leases[k].session == session && Live(leases[k], now) { held := Some(k); }
        left := left - {k};
      }
      if held.Some? {
        assert HoldsAt(leases, held.value, session, now);
        assert HoldsAt(leases, HeldKey(leases, session, now).value, session, now);
      }
    }

    method FindFree(candidates: seq<string>, now: real) returns (free: Option<string>)
      ensures free == FirstFree(leases, candidates, now)
    {
      var i := 0;
      while i < |candidates|
        invariant 0 <= i <= |candidates|
        invariant FirstFree(leases, candidates, now) == FirstFree(leases, candidates[i..], now)
      {
        assert candidates[i..][0] == candidates[i] && candidates[i..][1..] == candidates[i + 1..];
        if Free(leases, candidates[i], now) { return Some(candidates[i]); }
        i := i + 1;
      }
      free := None;
    }

    /** `preferred` is empty when the caller names no world. */
    method AcquireLease(session: string, user: string, preferred: string, now: real) returns (lease: Lease)
      requires Valid(now)
      modifies this
      ensures Valid(now) && leases == Step(old(leases), worlds, ttl, Acquire(session, user, preferred), now)
      ensures var g := Acquired(old(leases), worlds, ttl, session, user, preferred, now); lease == g.pool[g.key]
      ensures lease.session == session && lease.expiresAt == now + ttl
    {
      StepKeeps(leases, worlds, ttl, Acquire(session, user, preferred), now);
      var held := FindHeld(session, now);
      if held.Some? {
        var k := held.value;
        if Switches(leases, k, session, preferred, now) {
          leases := leases - {k};
        } else {
          lease := Extended(leases[k], ttl, now);
          leases := leases[k := lease];
          return;
        }
      }
      var free := FindFree(Candidates(worlds, preferred), now);
      if free.Some? {
        lease := Fresh(free.value, session, user, ttl, now, false);
        leases := leases[free.value := lease];
      } else {
        lease := Fresh(OBSERVER, session, user, ttl, now, true);
        leases := leases[ObserverKey(session) := lease];
      }
    }

    method HeartbeatLease(tenant: string, session: string, now: real) returns (ok: bool)
      requires Valid(now)
      modifies this
      ensures Valid(now) && leases == Step(old(leases), worlds, ttl, Heartbeat(tenant, session), now)
      ensures ok == Holds(old(leases), tenant, session, now)
    {
      StepKeeps(leases, worlds, ttl, Heartbeat(tenant, session), now);
      var k := KeyOf(tenant, session);
      ok := k in leases && leases[k].session == session && leases[k].expiresAt > now;
      if ok { leases := leases[k := Extended(leases[k], ttl, now)]; }
    }

    method HoldsLease(tenant: string, session: string, now: real) returns (ok: bool)
      ensures ok == Holds(leases, tenant, session, now)
    {
      var k := KeyOf(tenant, session);
      ok := k in leases && leases[k].session == session && leases[k].expiresAt > now;
    }

    method GetLease(tenant: string, session: string, now: real) returns (lease: Option<Lease>)
      ensures lease == if Holds(leases, tenant, session, now) then Some(leases[KeyOf(tenant, session)]) else None
    {
      var k := KeyOf(tenant, session);
      lease := if k in leases && leases[k].session == session && leases[k].expiresAt > now then Some(leases[k]) else None;
    }

    /** Frees the key even of an expired lease, but only the session's own. */
    method ReleaseLease(tenant: string, session: string, now: real) returns (ok: bool)
      requires Valid(now)
      modifies this
      ensures Valid(now) && leases == Step(old(leases), worlds, ttl, Release(tenant, session), now)
      ensures ok <==> leases != old(leases)
      ensures !Holds(leases, tenant, session, now)
    {
      StepKeeps(leases, worlds, ttl, Release(tenant, session), now);
      var k := KeyOf(tenant, session);
      ok := k in leases && leases[k].session == session;
      if ok { leases := leases - {k}; }
    }
  }
}
