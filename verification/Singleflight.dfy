/** Coalescing of concurrent calls: one leader per key runs the call, everyone who
    arrives meanwhile waits for its future. A step is the code between two awaits. */
module Singleflight {
  type Caller = nat
  type FutureId = nat

  datatype Outcome<V, X> = Result(value: V) | Exception(error: X)

  datatype Future<V, X> = Pending | Resolved(outcome: Outcome<V, X>)

  datatype Phase<K, V, X> =
    | Leading(key: K, id: FutureId)                                                // running the call
    | Closing(key: K, id: FutureId, outcome: Outcome<V, X>)                        // resolved, about to unregister
    | Following(key: K, id: FutureId)                                              // awaiting someone's future
    | Returned(key: K, id: FutureId, outcome: Outcome<V, X>, leader: bool)

  /** `leaders[id]` remembers who created future `id`. */
  datatype State<K, V, X> = State(
    flights: map<K, FutureId>,
    futures: seq<Future<V, X>>,
    callers: map<Caller, Phase<K, V, X>>,
    leaders: seq<Caller>)

  datatype Event<K, V, X> =
    | Enter(c: Caller, key: K)
    | Finish(c: Caller, outcome: Outcome<V, X>)
    | Close(c: Caller)
    | Wake(c: Caller)

  function Init<K, V, X>(): State<K, V, X> { State(map[], [], map[], []) }

  predicate Leads<K, V, X>(p: Phase<K, V, X>) { p.Leading? || p.Closing? }

  predicate Enabled<K, V, X>(s: State<K, V, X>, e: Event<K, V, X>) {
    if e.Enter? then e.c !in s.callers
    else
      && e.c in s.callers
      && var p := s.callers[e.c];
         match e
         case Finish(_, _) => p.Leading? && p.id < |s.futures|
         case Close(_) => p.Closing?
         case Wake(_) => p.Following? && p.id < |s.futures| && s.futures[p.id].Resolved?
  }

  function Step<K, V, X>(s: State<K, V, X>, e: Event<K, V, X>): State<K, V, X>
    requires Enabled(s, e)
  {
    match e
    case Enter(c, key) =>
      if key in s.flights then s.(callers := s.callers[c := Following(key, s.flights[key])])
      else
        State(s.flights[key := |s.futures|], s.futures + [Pending],
              s.callers[c := Leading(key, |s.futures|)], s.leaders + [c])
    case Finish(c, outcome) =>
      var p := s.callers[c];
      s.(futures := s.futures[p.id := Resolved(outcome)], callers := s.callers[c := Closing(p.key, p.id, outcome)])
    case Close(c) =>
      var p := s.callers[c];
      var left := if p.key in s.flights && s.flights[p.key] == p.id then s.flights - {p.key} else s.flights;
      s.(flights := left, callers := s.callers[c := Returned(p.key, p.id, p.outcome, true)])
    case Wake(c) =>
      var p := s.callers[c];
      s.(callers := s.callers[c := Returned(p.key, p.id, s.futures[p.id].outcome, false)])
  }

  // ----- what every step keeps -----

  ghost predicate CallerOk<K, V, X>(s: State<K, V, X>, c: Caller)
    requires c in s.callers
  {
    var p := s.callers[c];
    && p.id < |s.futures| == |s.leaders|
    && s.leaders[p.id] in s.callers && s.callers[s.leaders[p.id]].key == p.key
    && (Leads(p) ==> s.leaders[p.id] == c && p.key in s.flights && s.flights[p.key] == p.id)
    && (p.Leading? ==> s.futures[p.id].Pending?)
    && (p.Closing? || p.Returned? ==> s.futures[p.id] == Resolved(p.outcome))
    && (p.Returned? && p.leader ==> s.leaders[p.id] == c)
    && (p.Following? || (p.Returned? && !p.leader) ==> s.leaders[p.id] != c)
  }

  ghost predicate FutureOk<K, V, X>(s: State<K, V, X>, id: FutureId)
    requires id < |s.futures| == |s.leaders|
  {
    var c := s.leaders[id];
    && c in s.callers && s.callers[c].id == id
    && (s.futures[id].Pending? <==> s.callers[c].Leading?)
    && (Leads(s.callers[c]) || (s.callers[c].Returned? && s.callers[c].leader))
  }

  ghost predicate FlightOk<K, V, X>(s: State<K, V, X>, k: K)
    requires k in s.flights
  {
    var id := s.flights[k];
    id < |s.leaders| && s.leaders[id] in s.callers
    && Leads(s.callers[s.leaders[id]]) && s.callers[s.leaders[id]].key == k
  }

  ghost predicate Inv<K(!new), V, X>(s: State<K, V, X>) {
    && |s.futures| == |s.leaders|
    && (forall c {:trigger CallerOk(s, c)} :: c in s.callers ==> CallerOk(s, c))
    && (forall id {:trigger FutureOk(s, id)} :: 0 <= id < |s.futures| ==> FutureOk(s, id))
    && (forall k {:trigger FlightOk(s, k)} :: k in s.flights ==> FlightOk(s, k))
  }

  lemma JoinKeeps<K(!new), V, X>(s: State<K, V, X>, e: Event<K, V, X>)
    requires Inv(s) && Enabled(s, e) && e.Enter? && e.key in s.flights
    ensures Inv(Step(s, e))
  {
    var t := Step(s, e);
    assert FlightOk(s, e.key) && FutureOk(s, s.flights[e.key]);
    assert CallerOk(t, e.c);
    forall d | d in s.callers
      ensures CallerOk(t, d)
    { assert CallerOk(s, d); }
    forall id | 0 <= id < |t.futures|
      ensures FutureOk(t, id)
    { assert FutureOk(s, id); }
    forall k | k in t.flights
      ensures FlightOk(t, k)
    { assert FlightOk(s, k); }
  }

  lemma LeadKeeps<K(!new), V, X>(s: State<K, V, X>, e: Event<K, V, X>)
    requires Inv(s) && Enabled(s, e) && e.Enter? && e.key !in s.flights
    ensures Inv(Step(s, e))
  {
    var t := Step(s, e);
    LeadKeepsCallers(s, e);
    forall id | 0 <= id < |t.futures|
      ensures FutureOk(t, id)
    { if id < |s.futures| { assert FutureOk(s, id); } }
    forall k | k in t.flights
      ensures FlightOk(t, k)
    { if k != e.key { assert FlightOk(s, k); } }
  }

  lemma LeadKeepsCallers<K(!new), V, X>(s: State<K, V, X>, e: Event<K, V, X>)
    requires Inv(s) && Enabled(s, e) && e.Enter? && e.key !in s.flights
    ensures forall d {:trigger CallerOk(Step(s, e), d)} :: d in Step(s, e).callers ==> CallerOk(Step(s, e), d)
  {
    var t := Step(s, e);
    forall d | d in t.callers
      ensures CallerOk(t, d)
    { if d != e.c { assert CallerOk(s, d); } }
  }

  /** A caller changes its own phase and, as a leader, its own future. */
  lemma MoveKeeps<K(!new), V, X>(s: State<K, V, X>, e: Event<K, V, X>)
    requires Inv(s) && Enabled(s, e) && (e.Finish? || e.Wake?)
    ensures Inv(Step(s, e))
  {
    var t := Step(s, e);
    assert CallerOk(s, e.c);
    forall d | d in t.callers
      ensures CallerOk(t, d)
    { assert CallerOk(s, d); }
    forall id | 0 <= id < |t.futures|
      ensures FutureOk(t, id)
    { assert FutureOk(s, id); }
    forall k | k in t.flights
      ensures FlightOk(t, k)
    { assert FlightOk(s, k); assert FutureOk(s, s.flights[k]); }
  }

  lemma CloseKeeps<K(!new), V, X>(s: State<K, V, X>, e: Event<K, V, X>)
    requires Inv(s) && Enabled(s, e) && e.Close?
    ensures Inv(Step(s, e)) && Step(s, e).flights == s.flights - {s.callers[e.c].key}
  {
    var t := Step(s, e);
    var p := s.callers[e.c];
    assert CallerOk(s, e.c);
    forall d | d in t.callers
      ensures CallerOk(t, d)
    {
      assert CallerOk(s, d);
      assert d != e.c && Leads(s.callers[d]) ==> s.callers[d].key != p.key;
    }
    forall id | 0 <= id < |t.futures|
      ensures FutureOk(t, id)
    { assert FutureOk(s, id); }
    forall k | k in t.flights
      ensures FlightOk(t, k)
    { assert FlightOk(s, k); }
  }

  lemma StepKeeps<K(!new), V, X>(s: State<K, V, X>, e: Event<K, V, X>)
    requires Inv(s) && Enabled(s, e)
    ensures Inv(Step(s, e))
  {
    match e
    case Enter(_, key) => if key in s.flights { JoinKeeps(s, e); } else { LeadKeeps(s, e); }
    case Close(_) => CloseKeeps(s, e);
    case _ => MoveKeeps(s, e);
  }

  // ----- whole runs -----

  predicate Possible<K, V, X>(s: State<K, V, X>, events: seq<Event<K, V, X>>)
    decreases |events|
  {
    events != [] ==> Enabled(s, events[0]) && Possible(Step(s, events[0]), events[1..])
  }

  function After<K, V, X>(s: State<K, V, X>, events: seq<Event<K, V, X>>): State<K, V, X>
    requires Possible(s, events)
    decreases |events|
  {
    if events == [] then s else After(Step(s, events[0]), events[1..])
  }

  lemma {:induction false} RunKeeps<K(!new), V, X>(s: State<K, V, X>, events: seq<Event<K, V, X>>)
    requires Inv(s) && Possible(s, events)
    ensures Inv(After(s, events))
    decreases |events|
  {
    if events != [] {
      StepKeeps(s, events[0]);
      RunKeeps(Step(s, events[0]), events[1..]);
    }
  }

  /** At most one caller per key is between registering its flight and removing it. */
  ghost predicate OneLeader<K, V, X>(s: State<K, V, X>) {
    forall c, d | c in s.callers && d in s.callers && Leads(s.callers[c]) && Leads(s.callers[d]) ::
      s.callers[c].key == s.callers[d].key ==> c == d
  }

  /** Everyone who returned got the outcome its leader's call had, for its own key. */
  ghost predicate OutcomesShared<K, V, X>(s: State<K, V, X>) {
    forall c | c in s.callers && s.callers[c].Returned? ::
      var p := s.callers[c];
      && p.id < |s.leaders| && s.leaders[p.id] in s.callers
      && var q := s.callers[s.leaders[p.id]];
         q.key == p.key && (q.Closing? || q.Returned?) && q.outcome == p.outcome && (p.leader <==> s.leaders[p.id] == c)
  }

  /** The identity check before unregistering always succeeds. */
  ghost predicate OwnFlight<K, V, X>(s: State<K, V, X>) {
    forall c | c in s.callers && Leads(s.callers[c]) ::
      s.callers[c].key in s.flights && s.flights[s.callers[c].key] == s.callers[c].id
  }

  lemma InvMeans<K(!new), V, X>(s: State<K, V, X>)
    requires Inv(s)
    ensures OneLeader(s) && OutcomesShared(s) && OwnFlight(s)
  {
    forall c | c in s.callers && s.callers[c].Returned?
      ensures var p := s.callers[c];
        && p.id < |s.leaders| && s.leaders[p.id] in s.callers
        && var q := s.callers[s.leaders[p.id]];
           q.key == p.key && (q.Closing? || q.Returned?) && q.outcome == p.outcome && (p.leader <==> s.leaders[p.id] == c)
    {
      assert CallerOk(s, c);
      assert FutureOk(s, s.callers[c].id);
      assert CallerOk(s, s.leaders[s.callers[c].id]);
    }
    forall c | c in s.callers && Leads(s.callers[c])
      ensures s.callers[c].key in s.flights && s.flights[s.callers[c].key] == s.callers[c].id
      ensures s.callers[c].id < |s.leaders| && s.leaders[s.callers[c].id] == c
    {
      assert CallerOk(s, c);
    }
  }

  /** In every interleaving of any number of callers. */
  lemma FlightsAreShared<K(!new), V, X>(events: seq<Event<K, V, X>>)
    requires Possible(Init(), events)
    ensures var s := After(Init(), events); OneLeader(s) && OutcomesShared(s) && OwnFlight(s)
  {
    RunKeeps(Init<K, V, X>(), events);
    InvMeans(After(Init(), events));
  }

  predicate Quiet<K, V, X>(s: State<K, V, X>) { forall c :: c in s.callers ==> s.callers[c].Returned? }

  /** When everyone has returned, nothing is registered. */
  lemma QuietMeansNoFlights<K(!new), V, X>(events: seq<Event<K, V, X>>)
    requires Possible(Init(), events)
    requires Quiet(After(Init(), events))
    ensures After(Init(), events).flights == map[]
  {
    RunKeeps(Init<K, V, X>(), events);
    var s := After(Init(), events);
    assert forall k | k in s.flights :: FlightOk(s, k);
  }

  /** No follower waits for nobody: while one is waiting, its leader or the follower
      itself can move. */
  lemma FollowerIsServed<K(!new), V, X>(s: State<K, V, X>, c: Caller, outcome: Outcome<V, X>)
    requires Inv(s) && c in s.callers && s.callers[c].Following?
    ensures s.callers[c].id < |s.leaders|
    ensures Enabled(s, Wake(c)) || Enabled(s, Finish(s.leaders[s.callers[c].id], outcome))
  {
    assert CallerOk(s, c);
    assert FutureOk(s, s.callers[c].id);
  }

  /** A future, once resolved, keeps its outcome: nothing ever resolves it again. */
  lemma {:induction false} ResolvedForGood<K(!new), V, X>(s: State<K, V, X>, events: seq<Event<K, V, X>>, id: FutureId)
    requires Inv(s) && Possible(s, events) && id < |s.futures| && s.futures[id].Resolved?
    ensures var t := After(s, events); id < |t.futures| && t.futures[id] == s.futures[id]
    decreases |events|
  {
    if events != [] {
      if events[0].Finish? { assert CallerOk(s, events[0].c); }
      StepKeeps(s, events[0]);
      ResolvedForGood(Step(s, events[0]), events[1..], id);
    }
  }

  // ----- the object -----

  /** The group; each method is the code between two awaits. */
  class SingleFlightGroup<K(==), V, X> {
    var flights: map<K, FutureId>
    var futures: seq<Future<V, X>>
    var callers: map<Caller, Phase<K, V, X>>
    ghost var leaders: seq<Caller>

    ghost function View(): State<K, V, X>
      reads this
    {
      State(flights, futures, callers, leaders)
    }

    constructor ()
      ensures View() == Init()
    {
      flights, futures, callers, leaders := map[], [], map[], [];
    }

    /** Calls being shared right now. */
    method InFlight() returns (n: nat)
      ensures n == |View().flights|
    {
      n := |flights|;
    }

    /** Joins the key's flight, or registers one. */
    method Enter(c: Caller, key: K) returns (wasLeader: bool)
      requires c !in callers
      modifies this
      ensures View() == Step(old(View()), Event.Enter(c, key))
      ensures wasLeader <==> key !in old(flights)
    {
      if key in flights {
        callers := callers[c := Following(key, flights[key])];
        wasLeader := false;
      } else {
        flights := flights[key := |futures|];
        callers := callers[c := Leading(key, |futures|)];
        futures := futures + [Pending];
        leaders := leaders + [c];
        wasLeader := true;
      }
    }

    /** The leader's call is over: `set_result` or `set_exception`. */
    method Finish(c: Caller, outcome: Outcome<V, X>)
      requires Enabled(View(), Event.Finish(c, outcome))
      modifies this
      ensures View() == Step(old(View()), Event.Finish(c, outcome))
    {
      var p := callers[c];
      futures := futures[p.id := Resolved(outcome)];
      callers := callers[c := Closing(p.key, p.id, outcome)];
    }

    /** The `finally` block. */
    method Close(c: Caller) returns (outcome: Outcome<V, X>)
      requires Enabled(View(), Event.Close(c))
      modifies this
      ensures View() == Step(old(View()), Event.Close(c)) && callers[c].Returned? && outcome == callers[c].outcome
    {
      var p := callers[c];
      if p.key in flights && flights[p.key] == p.id {
        flights := flights - {p.key};
      }
      outcome := p.outcome;
      callers := callers[c := Returned(p.key, p.id, p.outcome, true)];
    }

    /** A follower's future is resolved. */
    method Wake(c: Caller) returns (outcome: Outcome<V, X>)
      requires Enabled(View(), Event.Wake(c))
      modifies this
      ensures View() == Step(old(View()), Event.Wake(c)) && callers[c].Returned? && outcome == callers[c].outcome
    {
      var p := callers[c];
      outcome := futures[p.id].outcome;
      callers := callers[c := Returned(p.key, p.id, outcome, false)];
    }
  }
}
