/** The pool of tenant worlds: who holds which, and until when. Every operation runs
    under one lock, so a run is a sequence of operations on a non-decreasing clock. */
module Leases {
  import opened Common
  import opened Numbering

  const OBSERVER := "observer"

  datatype Lease = Lease(tenant: string, session: string, user: string,
                         leasedAt: real, heartbeatAt: real, expiresAt: real, observer: bool)

  type Pool = map<string, Lease>

  /** `t01`, `t02`, ... */
  function World(i: nat): string { "t" + TwoDigits(i) }

  function Worlds(n: nat): seq<string> { seq(n, i requires 0 <= i < n => World(i + 1)) }

  function ObserverKey(session: string): string { "obs-" + session }

  function KeyOf(tenant: string, session: string): string {
    if tenant == OBSERVER then ObserverKey(session) else tenant
  }

  predicate Live(l: Lease, now: real) { l.expiresAt > now }

  predicate HoldsAt(pool: Pool, k: string, session: string, now: real) {
    k in pool && pool[k].session == session && Live(pool[k], now)
  }

  /** The permission check. */
  predicate Holds(pool: Pool, tenant: string, session: string, now: real) {
    HoldsAt(pool, KeyOf(tenant, session), session, now)
  }

  // ----- the operations on the pool -----

  function Extended(l: Lease, ttl: real, now: real): Lease { l.(heartbeatAt := now, expiresAt := now + ttl) }

  function Fresh(tenant: string, session: string, user: string, ttl: real, now: real, observer: bool): Lease {
    Lease(tenant, session, user, now, now, now + ttl, observer)
  }

  /** The worlds to try, the preferred one first. */
  function Candidates(n: nat, preferred: string): seq<string> {
    if preferred in Worlds(n) then [preferred] + Without(Worlds(n), preferred) else Worlds(n)
  }

  /** `list.remove`: drops the first occurrence. */
  function Without(xs: seq<string>, x: string): seq<string> {
    if xs == [] then [] else if xs[0] == x then xs[1..] else [xs[0]] + Without(xs[1..], x)
  }

  predicate Free(pool: Pool, k: string, now: real) { k !in pool || !Live(pool[k], now) }

  function FirstFree(pool: Pool, candidates: seq<string>, now: real): (r: Option<string>)
    ensures r.Some? ==> r.value in candidates && Free(pool, r.value, now)
    ensures r.None? <==> forall k :: k in candidates ==> !Free(pool, k, now)
  {
    if candidates == [] then None
    else if Free(pool, candidates[0], now) then Some(candidates[0])
    else FirstFree(pool, candidates[1..], now)
  }

  /** Whether a session that holds `k` gives it up for the preferred world. */
  predicate Switches(pool: Pool, k: string, session: string, preferred: string, now: real)
    requires k in pool
  {
    preferred != "" && pool[k].tenant != preferred && (Free(pool, preferred, now) || pool[preferred].session == session)
  }

  ghost function HeldKey(pool: Pool, session: string, now: real): (r: Option<string>)
    ensures r.Some? ==> HoldsAt(pool, r.value, session, now)
    ensures r.None? <==> forall k :: !HoldsAt(pool, k, session, now)
  {
    if k :| HoldsAt(pool, k, session, now) then Some(k) else None
  }

  datatype Granted = Granted(pool: Pool, key: string)

  function Search(pool: Pool, n: nat, ttl: real, session: string, user: string, preferred: string, now: real): (g: Granted)
    ensures g.key in g.pool
  {
    match FirstFree(pool, Candidates(n, preferred), now)
    case Some(k) => Granted(pool[k := Fresh(k, session, user, ttl, now, false)], k)
    case None =>
      var k := ObserverKey(session);
      Granted(pool[k := Fresh(OBSERVER, session, user, ttl, now, true)], k)
  }

  ghost function Acquired(pool: Pool, n: nat, ttl: real, session: string, user: string, preferred: string, now: real): (g: Granted)
    ensures g.key in g.pool
  {
    match HeldKey(pool, session, now)
    case None => Search(pool, n, ttl, session, user, preferred, now)
    case Some(k) =>
      if Switches(pool, k, session, preferred, now) then Search(pool - {k}, n, ttl, session, user, preferred, now)
      else Granted(pool[k := Extended(pool[k], ttl, now)], k)
  }

  function Beaten(pool: Pool, ttl: real, tenant: string, session: string, now: real): Pool {
    var k := KeyOf(tenant, session);
    if HoldsAt(pool, k, session, now) then pool[k := Extended(pool[k], ttl, now)] else pool
  }

  function Released(pool: Pool, tenant: string, session: string): Pool {
    var k := KeyOf(tenant, session);
    if k in pool && pool[k].session == session then pool - {k} else pool
  }

  datatype Op =
    | Acquire(session: string, user: string, preferred: string)
    | Heartbeat(tenant: string, session: string)
    | Release(tenant: string, session: string)

  ghost function Step(pool: Pool, n: nat, ttl: real, op: Op, now: real): Pool {
    match op
    case Acquire(session, user, preferred) => Acquired(pool, n, ttl, session, user, preferred, now).pool
    case Heartbeat(tenant, session) => Beaten(pool, ttl, tenant, session, now)
    case Release(tenant, session) => Released(pool, tenant, session)
  }

  // ----- names -----

  lemma WorldsDistinct(n: nat, i: nat, j: nat)
    requires i < n && j < n && Worlds(n)[i] == Worlds(n)[j]
    ensures i == j
  {
    NumbersApart("t", i + 1, j + 1);
  }

  /** World names, observer keys and the observer's own name never collide. */
  lemma NamesApart(n: nat, k: string)
    requires k in Worlds(n)
    ensures k != OBSERVER && k != "" && forall s :: k != ObserverKey(s)
  {
    assert k[0] == 't';
    assert forall s :: ObserverKey(s)[0] == 'o';
  }

  lemma {:induction false} WithoutRest(xs: seq<string>, x: string, y: string)
    requires y in xs && y != x
    ensures y in Without(xs, x)
  {
    if xs[0] != x && y != xs[0] { WithoutRest(xs[1..], x, y); }
  }

  lemma {:induction false} WithoutOnly(xs: seq<string>, x: string, y: string)
    requires y in Without(xs, x)
    ensures y in xs
  {
    if xs != [] && xs[0] != x && y != xs[0] { WithoutOnly(xs[1..], x, y); }
  }

  /** The candidates are the worlds, in another order. */
  lemma CandidatesAreWorlds(n: nat, preferred: string, k: string)
    ensures k in Candidates(n, preferred) <==> k in Worlds(n)
  {
    if preferred in Worlds(n) && k != preferred {
      if k in Worlds(n) { WithoutRest(Worlds(n), preferred, k); }
      if k in Without(Worlds(n), preferred) { WithoutOnly(Worlds(n), preferred, k); }
    }
  }

  // ----- what every operation keeps -----

  predicate LeaseOk(n: nat, ttl: real, k: string, l: Lease, now: real) {
    && (if l.observer then k == ObserverKey(l.session) && l.tenant == OBSERVER else k == l.tenant && k in Worlds(n))
    && l.leasedAt <= l.heartbeatAt <= now && l.expiresAt == l.heartbeatAt + ttl
  }

  ghost predicate OneLease(pool: Pool, now: real) {
    forall j, k, s {:trigger HoldsAt(pool, j, s, now), HoldsAt(pool, k, s, now)} ::
      HoldsAt(pool, j, s, now) && HoldsAt(pool, k, s, now) ==> j == k
  }

  ghost predicate Inv(pool: Pool, n: nat, ttl: real, now: real) {
    (forall k :: k in pool ==> LeaseOk(n, ttl, k, pool[k], now)) && OneLease(pool, now)
  }

  lemma TimeKeeps(pool: Pool, n: nat, ttl: real, now: real, later: real)
    requires Inv(pool, n, ttl, now) && now <= later
    ensures Inv(pool, n, ttl, later)
  {
    forall j, k, s | HoldsAt(pool, j, s, later) && HoldsAt(pool, k, s, later)
      ensures j == k
    {
      assert HoldsAt(pool, j, s, now) && HoldsAt(pool, k, s, now);
    }
  }

  /** A session without a live lease gets one on a free key. */
  lemma PlaceKeeps(pool: Pool, n: nat, ttl: real, k: string, l: Lease, now: real)
    requires Inv(pool, n, ttl, now) && LeaseOk(n, ttl, k, l, now) && Free(pool, k, now)
    requires forall j :: !HoldsAt(pool, j, l.session, now)
    ensures Inv(pool[k := l], n, ttl, now)
  {
    var after := pool[k := l];
    forall i, j, s | HoldsAt(after, i, s, now) && HoldsAt(after, j, s, now)
      ensures i == j
    {
      assert i != k ==> HoldsAt(pool, i, s, now);
      assert j != k ==> HoldsAt(pool, j, s, now);
    }
  }

  lemma ObserverKeyFree(pool: Pool, n: nat, ttl: real, session: string, now: real)
    requires Inv(pool, n, ttl, now) && forall k :: !HoldsAt(pool, k, session, now)
    ensures Free(pool, ObserverKey(session), now)
  {
    var own := ObserverKey(session);
    if own in pool {
      assert LeaseOk(n, ttl, own, pool[own], now);
      if own in Worlds(n) { NamesApart(n, own); }
      assert own[4..] == session && ObserverKey(pool[own].session)[4..] == pool[own].session;
      assert !HoldsAt(pool, own, session, now);
    }
  }

  /** A grant goes to a free key; it is an observer's exactly when every world is taken. */
  lemma SearchGrants(pool: Pool, n: nat, ttl: real, session: string, user: string, preferred: string, now: real)
    requires Inv(pool, n, ttl, now) && forall k :: !HoldsAt(pool, k, session, now)
    ensures var g := Search(pool, n, ttl, session, user, preferred, now);
      && Inv(g.pool, n, ttl, now) && Free(pool, g.key, now)
      && g.pool == pool[g.key := g.pool[g.key]]
      && g.pool[g.key].session == session && g.pool[g.key].leasedAt == now
      && (g.pool[g.key].observer <==> forall k :: k in Worlds(n) ==> !Free(pool, k, now))
  {
    forall k ensures k in Candidates(n, preferred) <==> k in Worlds(n) { CandidatesAreWorlds(n, preferred, k); }
    match FirstFree(pool, Candidates(n, preferred), now) {
      case Some(k) => PlaceKeeps(pool, n, ttl, k, Fresh(k, session, user, ttl, now, false), now);
      case None =>
        ObserverKeyFree(pool, n, ttl, session, now);
        PlaceKeeps(pool, n, ttl, ObserverKey(session), Fresh(OBSERVER, session, user, ttl, now, true), now);
    }
  }

  lemma DropKeeps(pool: Pool, n: nat, ttl: real, k: string, now: real)
    requires Inv(pool, n, ttl, now)
    ensures Inv(pool - {k}, n, ttl, now)
  {
    var after := pool - {k};
    forall i, j, s | HoldsAt(after, i, s, now) && HoldsAt(after, j, s, now)
      ensures i == j
    {
      assert HoldsAt(pool, i, s, now) && HoldsAt(pool, j, s, now);
    }
  }

  lemma ExtendKeeps(pool: Pool, n: nat, ttl: real, k: string, now: real)
    requires Inv(pool, n, ttl, now) && k in pool && Live(pool[k], now) && ttl > 0.0
    ensures Inv(pool[k := Extended(pool[k], ttl, now)], n, ttl, now)
  {
    var after := pool[k := Extended(pool[k], ttl, now)];
    forall i, j, s | HoldsAt(after, i, s, now) && HoldsAt(after, j, s, now)
      ensures i == j
    {
      assert HoldsAt(pool, i, s, now) && HoldsAt(pool, j, s, now);
    }
  }

  /** The session's lease after a switch has been given up. */
  lemma GaveUp(pool: Pool, n: nat, ttl: real, session: string, k: string, now: real)
    requires Inv(pool, n, ttl, now) && HoldsAt(pool, k, session, now)
    ensures Inv(pool - {k}, n, ttl, now) && forall j :: !HoldsAt(pool - {k}, j, session, now)
  {
    DropKeeps(pool, n, ttl, k, now);
    forall j
      ensures !HoldsAt(pool - {k}, j, session, now)
    {
      if HoldsAt(pool - {k}, j, session, now) { assert HoldsAt(pool, j, session, now); }
    }
  }

  lemma StepKeeps(pool: Pool, n: nat, ttl: real, op: Op, now: real)
    requires Inv(pool, n, ttl, now) && ttl > 0.0
    ensures Inv(Step(pool, n, ttl, op, now), n, ttl, now)
  {
    match op {
      case Acquire(session, user, preferred) =>
        match HeldKey(pool, session, now) {
          case None => SearchGrants(pool, n, ttl, session, user, preferred, now);
          case Some(k) =>
            if Switches(pool, k, session, preferred, now) {
              GaveUp(pool, n, ttl, session, k, now);
              SearchGrants(pool - {k}, n, ttl, session, user, preferred, now);
            } else {
              ExtendKeeps(pool, n, ttl, k, now);
            }
        }
      case Heartbeat(tenant, session) =>
        if HoldsAt(pool, KeyOf(tenant, session), session, now) { ExtendKeeps(pool, n, ttl, KeyOf(tenant, session), now); }
      case Release(tenant, session) => DropKeeps(pool, n, ttl, KeyOf(tenant, session), now);
    }
  }

  // ----- what one operation does to the leases -----

  lemma AcquireTouchesNoOther(pool: Pool, n: nat, ttl: real, op: Op, now: real, k: string)
    requires Inv(pool, n, ttl, now) && op.Acquire?
    ensures var after := Step(pool, n, ttl, op, now);
      && (k in pool && pool[k].session != op.session && Live(pool[k], now) ==> k in after && after[k] == pool[k])
      && (k in after && after[k].session != op.session ==> k in pool && pool[k] == after[k])
  {
    match HeldKey(pool, op.session, now)
    case None => SearchGrants(pool, n, ttl, op.session, op.user, op.preferred, now);
    case Some(j) =>
      GaveUp(pool, n, ttl, op.session, j, now);
      SearchGrants(pool - {j}, n, ttl, op.session, op.user, op.preferred, now);
  }

  /** Other sessions' live leases stay as they are, and none is made for them. */
  lemma OthersUntouched(pool: Pool, n: nat, ttl: real, op: Op, now: real, k: string)
    requires Inv(pool, n, ttl, now)
    ensures var after := Step(pool, n, ttl, op, now);
      && (k in pool && pool[k].session != op.session && Live(pool[k], now) ==> k in after && after[k] == pool[k])
      && (k in after && after[k].session != op.session ==> k in pool && pool[k] == after[k])
  {
    if op.Acquire? { AcquireTouchesNoOther(pool, n, ttl, op, now, k); }
  }

  /** The same lease, possibly extended. */
  predicate Continues(old_: Lease, l: Lease) {
    l.tenant == old_.tenant && l.session == old_.session && l.user == old_.user
      && l.leasedAt == old_.leasedAt && l.observer == old_.observer && l.expiresAt >= old_.expiresAt
  }

  /** A live lease was live before the operation, or is granted by it: none comes back. */
  lemma NoneRevived(pool: Pool, n: nat, ttl: real, op: Op, now: real, k: string)
    requires Inv(pool, n, ttl, now)
    requires var after := Step(pool, n, ttl, op, now); k in after && Live(after[k], now)
    ensures var after := Step(pool, n, ttl, op, now);
      after[k].leasedAt == now || (k in pool && Live(pool[k], now) && Continues(pool[k], after[k]))
  {
    if op.Acquire? {
      match HeldKey(pool, op.session, now) {
        case None => SearchGrants(pool, n, ttl, op.session, op.user, op.preferred, now);
        case Some(j) =>
          GaveUp(pool, n, ttl, op.session, j, now);
          SearchGrants(pool - {j}, n, ttl, op.session, op.user, op.preferred, now);
      }
    }
  }

  /** Who holds a live writable world leaves with a live writable world. */
  lemma WritableStays(pool: Pool, n: nat, ttl: real, session: string, user: string, preferred: string, now: real, k: string)
    requires Inv(pool, n, ttl, now) && ttl > 0.0 && HoldsAt(pool, k, session, now) && !pool[k].observer
    ensures var g := Acquired(pool, n, ttl, session, user, preferred, now);
      HoldsAt(g.pool, g.key, session, now) && !g.pool[g.key].observer
  {
    assert HoldsAt(pool, k, session, now);
    var j := HeldKey(pool, session, now).value;
    assert j == k;
    if Switches(pool, k, session, preferred, now) {
      GaveUp(pool, n, ttl, session, k, now);
      SearchGrants(pool - {k}, n, ttl, session, user, preferred, now);
      assert LeaseOk(n, ttl, k, pool[k], now);
      assert k in Worlds(n) && Free(pool - {k}, k, now);
    }
  }

  /** A session is made an observer only when other sessions, a different one for
      each world, hold every world live. */
  lemma ObserverMeansFull(pool: Pool, n: nat, ttl: real, session: string, user: string, preferred: string, now: real)
    requires Inv(pool, n, ttl, now)
    requires var g := Acquired(pool, n, ttl, session, user, preferred, now);
      g.pool[g.key].observer && !(g.key in pool && Live(pool[g.key], now) && Continues(pool[g.key], g.pool[g.key]))
    ensures forall i :: 0 <= i < n ==>
      Worlds(n)[i] in pool && Live(pool[Worlds(n)[i]], now) && pool[Worlds(n)[i]].session != session
    ensures forall i, j :: 0 <= i < j < n ==> pool[Worlds(n)[i]].session != pool[Worlds(n)[j]].session
  {
    var held := HeldKey(pool, session, now);
    var p := if held.Some? then pool - {held.value} else pool;
    if held.Some? { GaveUp(pool, n, ttl, session, held.value, now); }
    SearchGrants(p, n, ttl, session, user, preferred, now);
    forall i | 0 <= i < n
      ensures Worlds(n)[i] in p && Live(p[Worlds(n)[i]], now) && p[Worlds(n)[i]].session != session
    {
      assert Worlds(n)[i] in Worlds(n);
      assert !HoldsAt(p, Worlds(n)[i], session, now);
    }
    forall i, j | 0 <= i < j < n
      ensures pool[Worlds(n)[i]].session != pool[Worlds(n)[j]].session
    {
      var a, b := Worlds(n)[i], Worlds(n)[j];
      if pool[a].session == pool[b].session {
        assert HoldsAt(pool, a, pool[a].session, now) && HoldsAt(pool, b, pool[a].session, now);
        WorldsDistinct(n, i, j);
      }
    }
  }

  // ----- whole runs -----

  datatype Timed = Timed(op: Op, at: real)

  predicate InOrder(from: real, ops: seq<Timed>)
    decreases |ops|
  {
    ops != [] ==> from <= ops[0].at && InOrder(ops[0].at, ops[1..])
  }

  function EndOf(from: real, ops: seq<Timed>): real { if ops == [] then from else ops[|ops| - 1].at }

  ghost function After(pool: Pool, n: nat, ttl: real, ops: seq<Timed>): Pool
    decreases |ops|
  {
    if ops == [] then pool else After(Step(pool, n, ttl, ops[0].op, ops[0].at), n, ttl, ops[1..])
  }

  lemma {:induction false} RunKeeps(pool: Pool, n: nat, ttl: real, from: real, ops: seq<Timed>)
    requires Inv(pool, n, ttl, from) && ttl > 0.0 && InOrder(from, ops)
    ensures Inv(After(pool, n, ttl, ops), n, ttl, EndOf(from, ops)) && from <= EndOf(from, ops)
    decreases |ops|
  {
    if ops != [] {
      TimeKeeps(pool, n, ttl, from, ops[0].at);
      StepKeeps(pool, n, ttl, ops[0].op, ops[0].at);
      RunKeeps(Step(pool, n, ttl, ops[0].op, ops[0].at), n, ttl, ops[0].at, ops[1..]);
    }
  }

  /** In every reachable state: at most one live lease per session, and no world has
      two sessions the permission check lets through. */
  lemma HoldersAreUnique(n: nat, ttl: real, from: real, ops: seq<Timed>)
    requires ttl > 0.0 && InOrder(from, ops)
    ensures var pool, now := After(map[], n, ttl, ops), EndOf(from, ops);
      && OneLease(pool, now)
      && forall t, s1, s2 :: t in Worlds(n) && Holds(pool, t, s1, now) && Holds(pool, t, s2, now) ==> s1 == s2
  {
    assert OneLease(map[], from);
    RunKeeps(map[], n, ttl, from, ops);
    forall t | t in Worlds(n) ensures t != OBSERVER { NamesApart(n, t); }
  }

  /** Over any run: a lease that is live at the end was granted on the way, or was
      live at the start and has been the same lease ever since. */
  lemma {:induction false} LeasesNeverRevive(pool: Pool, n: nat, ttl: real, from: real, ops: seq<Timed>, k: string)
    requires Inv(pool, n, ttl, from) && ttl > 0.0 && InOrder(from, ops)
    requires var after := After(pool, n, ttl, ops); k in after && Live(after[k], EndOf(from, ops))
    ensures var after := After(pool, n, ttl, ops);
      after[k].leasedAt >= from || (k in pool && Live(pool[k], from) && Continues(pool[k], after[k]))
    decreases |ops|
  {
    if ops != [] {
      var at := ops[0].at;
      var mid := Step(pool, n, ttl, ops[0].op, at);
      TimeKeeps(pool, n, ttl, from, at);
      StepKeeps(pool, n, ttl, ops[0].op, at);
      assert EndOf(at, ops[1..]) == EndOf(from, ops);
      LeasesNeverRevive(mid, n, ttl, at, ops[1..], k);
      if k in mid && Live(mid[k], at) { NoneRevived(pool, n, ttl, ops[0].op, at, k); }
    }
  }

  /** A lease is safe from everybody else until it expires. */
  lemma {:induction false} HeldUntilExpiry(pool: Pool, n: nat, ttl: real, from: real, ops: seq<Timed>, k: string)
    requires Inv(pool, n, ttl, from) && ttl > 0.0 && InOrder(from, ops) && k in pool
    requires forall t :: t in ops ==> t.op.session != pool[k].session && t.at < pool[k].expiresAt
    ensures var after := After(pool, n, ttl, ops); k in after && after[k] == pool[k]
    decreases |ops|
  {
    if ops != [] {
      var at := ops[0].at;
      assert ops[0] in ops;
      TimeKeeps(pool, n, ttl, from, at);
      OthersUntouched(pool, n, ttl, ops[0].op, at, k);
      StepKeeps(pool, n, ttl, ops[0].op, at);
      HeldUntilExpiry(Step(pool, n, ttl, ops[0].op, at), n, ttl, at, ops[1..], k);
    }
  }
}
