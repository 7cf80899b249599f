/** The gateway's call pipeline: cache, then singleflight, then the rate limiter
    and the upstream call. A step is the code between two awaits and reads the
    clock once; the limiter and the upstream answer as they please. */
module Gateway {
  import opened Common
  import opened QueryCache
  import SF = Singleflight

  type Caller = nat

  datatype Fault = Throttled | Unavailable | Broken

  datatype Request = Request(tool: string, tenant: string, params: Params)

  datatype Response = Answer(payload: Payload, cacheHit: bool, stale: bool) | Failure(code: int)

  datatype Work =
    | Acquiring                      // leader, waiting for a rate-limit token
    | Calling                        // leader, upstream call running
    | Ending                         // leader, its future resolved
    | Joined                         // follower
    | Replied(response: Response)

  /** `cached` is the payload found stale when the request came in, if any. */
  datatype Ticket = Ticket(request: Request, address: Address, cached: Option<Payload>, work: Work)

  datatype Call = Call(address: Address, params: Params, payload: Payload)

  type Flights = SF.State<Address, Payload, Fault>

  /** `calls` is the history of successful upstream calls. */
  datatype State = State(now: real, cache: Entries, flights: Flights, tickets: map<Caller, Ticket>, calls: seq<Call>)

  datatype Event =
    | Tick(later: real)
    | Begin(c: Caller, request: Request)
    | Grant(c: Caller)
    | Refuse(c: Caller)
    | Reply(c: Caller, payload: Payload)
    | Fault(c: Caller, fault: Fault)
    | Close(c: Caller)
    | Wake(c: Caller)

  function Init(start: real): State { State(start, map[], SF.Init(), map[], []) }

  predicate Enabled(s: State, e: Event) {
    match e
    case Tick(later) => s.now <= later
    case Begin(c, _) => c !in s.tickets && c !in s.flights.callers
    case Grant(c) => c in s.tickets && s.tickets[c].work.Acquiring?
    case Refuse(c) =>
      c in s.tickets && s.tickets[c].work.Acquiring? && SF.Enabled(s.flights, SF.Finish(c, Refusal(s.tickets[c].cached)))
    case Reply(c, payload) =>
      c in s.tickets && s.tickets[c].work.Calling? && SF.Enabled(s.flights, SF.Finish(c, SF.Result(payload)))
    case Fault(c, fault) =>
      && c in s.tickets && s.tickets[c].work.Calling? && !fault.Throttled?
      && SF.Enabled(s.flights, SF.Finish(c, SF.Exception(fault)))
    case Close(c) => c in s.tickets && s.tickets[c].work.Ending? && SF.Enabled(s.flights, SF.Close(c))
    case Wake(c) => c in s.tickets && s.tickets[c].work.Joined? && SF.Enabled(s.flights, SF.Wake(c))
  }

  /** Out of tokens: the stale payload when there is one, an error otherwise. */
  function Refusal(cached: Option<Payload>): SF.Outcome<Payload, Fault> {
    if cached.Some? then SF.Result(cached.value) else SF.Exception(Throttled)
  }

  /** How the handler turns the flight's outcome into a response. */
  function Respond(cached: Option<Payload>, outcome: SF.Outcome<Payload, Fault>): Response {
    match outcome
    case Result(payload) => Answer(payload, false, cached.Some?)
    case Exception(fault) =>
      if fault.Throttled? then Failure(429)
      else if cached.Some? then Answer(cached.value, false, true)
      else if fault.Unavailable? then Failure(503)
      else Failure(502)
  }

  function With(s: State, c: Caller, work: Work): map<Caller, Ticket>
    requires c in s.tickets
  {
    s.tickets[c := s.tickets[c].(work := work)]
  }

  function Begun(s: State, c: Caller, r: Request): State
    requires c !in s.tickets && c !in s.flights.callers
  {
    var a := AddressOf(r.tool, r.tenant, r.params, s.now);
    var found := Lookup(s.cache, a, s.now);
    var cache := Consulted(s.cache, a, s.now);
    if found.Fresh? then
      s.(cache := cache, tickets := s.tickets[c := Ticket(r, a, None, Replied(Answer(found.payload, true, false)))])
    else
      var cached := if found.Stale? then Some(found.payload) else None;
      var work := if a in s.flights.flights then Joined else Acquiring;
      s.(cache := cache, flights := SF.Step(s.flights, SF.Enter(c, a)), tickets := s.tickets[c := Ticket(r, a, cached, work)])
  }

  function Answered(s: State, c: Caller, payload: Payload): State
    requires Enabled(s, Reply(c, payload))
  {
    var a := s.tickets[c].address;
    State(s.now, Stored(s.cache, a, payload, Ttl(a.tool), s.now),
          SF.Step(s.flights, SF.Finish(c, SF.Result(payload))), With(s, c, Ending),
          s.calls + [Call(a, s.tickets[c].request.params, payload)])
  }

  function Finished(s: State, c: Caller, e: SF.Event<Address, Payload, Fault>): State
    requires c in s.tickets && SF.Enabled(s.flights, e) && e.c == c && (e.Close? || e.Wake?)
  {
    var f := SF.Step(s.flights, e);
    s.(flights := f, tickets := With(s, c, Replied(Respond(s.tickets[c].cached, f.callers[c].outcome))))
  }

  function Step(s: State, e: Event): State
    requires Enabled(s, e)
  {
    match e
    case Tick(later) => s.(now := later)
    case Begin(c, r) => Begun(s, c, r)
    case Grant(c) => s.(tickets := With(s, c, Calling))
    case Refuse(c) =>
      s.(flights := SF.Step(s.flights, SF.Finish(c, Refusal(s.tickets[c].cached))), tickets := With(s, c, Ending))
    case Reply(c, payload) => Answered(s, c, payload)
    case Fault(c, fault) =>
      s.(flights := SF.Step(s.flights, SF.Finish(c, SF.Exception(fault))), tickets := With(s, c, Ending))
    case Close(c) => Finished(s, c, SF.Close(c))
    case Wake(c) => Finished(s, c, SF.Wake(c))
  }

  // ----- what every step keeps -----

  /** The payload is what an upstream call for this address returned. */
  ghost predicate Upstream(calls: seq<Call>, a: Address, payload: Payload) {
    exists i :: 0 <= i < |calls| && calls[i].address == a && calls[i].payload == payload
  }

  ghost predicate Called(calls: seq<Call>, a: Address) {
    exists i :: 0 <= i < |calls| && calls[i].address == a
  }

  predicate Over(a: Address, now: real) { (a.bucket + BUCKET) as real <= now }

  ghost predicate EntryOk(s: State, a: Address)
    requires a in s.cache
  {
    && a.bucket as real <= s.cache[a].created <= s.now
    && s.cache[a].ttl == Ttl(a.tool)
    && Upstream(s.calls, a, s.cache[a].payload)
  }

  predicate OwnAddress(t: Ticket) {
    t.address.tool == t.request.tool && t.address.tenant == t.request.tenant && t.address.params == Quantize(t.request.params)
  }

  ghost predicate TicketOk(s: State, c: Caller)
    requires c in s.tickets
  {
    var t := s.tickets[c];
    && OwnAddress(t) && t.cached.None? && t.address.bucket as real <= s.now
    && (!t.work.Replied? ==> c in s.flights.callers && s.flights.callers[c].key == t.address)
    && (t.work.Acquiring? || t.work.Calling? ==> s.flights.callers[c].Leading? && !Called(s.calls, t.address))
    && (t.work.Ending? ==> s.flights.callers[c].Closing?)
    && (t.work.Joined? ==> s.flights.callers[c].Following?)
    && (t.work.Replied? && t.work.response.Answer? ==>
          !t.work.response.stale && Upstream(s.calls, t.address, t.work.response.payload))
  }

  /** A future resolved with a payload holds what upstream returned for its key. */
  ghost predicate FutureOk(s: State, id: nat)
    requires id < |s.flights.futures| == |s.flights.leaders|
  {
    s.flights.futures[id].Resolved? && s.flights.futures[id].outcome.Result? ==>
      && s.flights.leaders[id] in s.flights.callers
      && Upstream(s.calls, s.flights.callers[s.flights.leaders[id]].key, s.flights.futures[id].outcome.value)
  }

  /** A successful call is remembered until its bucket is over. */
  ghost predicate CallOk(s: State, i: nat)
    requires i < |s.calls|
  {
    var a := s.calls[i].address;
    && a.params == Quantize(s.calls[i].params)
    && (a in s.cache || Over(a, s.now))
    && forall j :: 0 <= j < |s.calls| && s.calls[j].address == a ==> j == i
  }

  ghost predicate Inv(s: State) {
    && SF.Inv(s.flights)
    && (forall a {:trigger EntryOk(s, a)} :: a in s.cache ==> EntryOk(s, a))
    && (forall c {:trigger TicketOk(s, c)} :: c in s.tickets ==> TicketOk(s, c))
    && (forall id {:trigger FutureOk(s, id)} :: 0 <= id < |s.flights.futures| ==> FutureOk(s, id))
    && (forall i {:trigger CallOk(s, i)} :: 0 <= i < |s.calls| ==> CallOk(s, i))
    && (forall c :: c in s.flights.callers ==> c in s.tickets)
  }

  lemma TickKeeps(s: State, t: State)
    requires Inv(s) && s.now <= t.now && t == s.(now := t.now)
    ensures Inv(t)
  {
    forall a | a in t.cache ensures EntryOk(t, a) { assert EntryOk(s, a); }
    forall c | c in t.tickets ensures TicketOk(t, c) { assert TicketOk(s, c); }
    forall id | 0 <= id < |t.flights.futures| ensures FutureOk(t, id) { assert FutureOk(s, id); }
    forall i | 0 <= i < |t.calls| ensures CallOk(t, i) { assert CallOk(s, i); }
  }

  /** An address of the current bucket is answered from the cache, or was never fetched. */
  lemma MissMeansNew(s: State, r: Request)
    requires Inv(s)
    ensures var a := AddressOf(r.tool, r.tenant, r.params, s.now);
      && Consulted(s.cache, a, s.now) == s.cache
      && (a in s.cache ==> Lookup(s.cache, a, s.now) == Fresh(s.cache[a].payload))
      && (a !in s.cache ==> Lookup(s.cache, a, s.now) == Miss && !Called(s.calls, a))
  {
    var a := AddressOf(r.tool, r.tenant, r.params, s.now);
    if a in s.cache {
      assert EntryOk(s, a);
      CurrentBucketIsFresh(s.cache, a, s.now);
    } else {
      forall i | 0 <= i < |s.calls|
        ensures s.calls[i].address != a
      { assert CallOk(s, i); }
    }
  }

  lemma HitKeeps(s: State, c: Caller, r: Request, t: State)
    requires Inv(s) && c !in s.tickets && c !in s.flights.callers && t == Begun(s, c, r)
    requires AddressOf(r.tool, r.tenant, r.params, s.now) in s.cache
    ensures Inv(t)
  {
    MissMeansNew(s, r);
    var a := AddressOf(r.tool, r.tenant, r.params, s.now);
    assert EntryOk(s, a);
    assert t == s.(tickets := s.tickets[c := Ticket(r, a, None, Replied(Answer(s.cache[a].payload, true, false)))]);
    forall b | b in t.cache ensures EntryOk(t, b) { assert EntryOk(s, b); }
    forall d | d in t.tickets ensures TicketOk(t, d) { if d != c { assert TicketOk(s, d); } }
    forall id | 0 <= id < |t.flights.futures| ensures FutureOk(t, id) { assert FutureOk(s, id); }
    forall i | 0 <= i < |t.calls| ensures CallOk(t, i) { assert CallOk(s, i); }
  }

  lemma JoinOrLeadKeeps(s: State, c: Caller, r: Request, t: State)
    requires Inv(s) && c !in s.tickets && c !in s.flights.callers && t == Begun(s, c, r)
    requires AddressOf(r.tool, r.tenant, r.params, s.now) !in s.cache
    ensures Inv(t)
  {
    MissMeansNew(s, r);
    var a := AddressOf(r.tool, r.tenant, r.params, s.now);
    SF.StepKeeps(s.flights, SF.Enter(c, a));
    var work := if a in s.flights.flights then Joined else Acquiring;
    assert t == s.(flights := SF.Step(s.flights, SF.Enter(c, a)), tickets := s.tickets[c := Ticket(r, a, None, work)]);
    forall b | b in t.cache ensures EntryOk(t, b) { assert EntryOk(s, b); }
    forall d | d in t.tickets ensures TicketOk(t, d) { if d != c { assert TicketOk(s, d); } }
    forall id | 0 <= id < |t.flights.futures| ensures FutureOk(t, id) { if id < |s.flights.futures| { assert FutureOk(s, id); } }
    forall i | 0 <= i < |t.calls| ensures CallOk(t, i) { assert CallOk(s, i); }
  }

  lemma GrantKeeps(s: State, c: Caller, t: State)
    requires Inv(s) && Enabled(s, Grant(c)) && t == s.(tickets := With(s, c, Calling))
    ensures Inv(t)
  {
    forall a | a in t.cache ensures EntryOk(t, a) { assert EntryOk(s, a); }
    forall d | d in t.tickets ensures TicketOk(t, d) { assert TicketOk(s, d); }
    forall id | 0 <= id < |t.flights.futures| ensures FutureOk(t, id) { assert FutureOk(s, id); }
    forall i | 0 <= i < |t.calls| ensures CallOk(t, i) { assert CallOk(s, i); }
  }

  /** The leader's call failed; the flight resolves with the fault. */
  lemma FaultKeeps(s: State, c: Caller, fault: Fault, t: State)
    requires Inv(s) && c in s.tickets && (s.tickets[c].work.Acquiring? || s.tickets[c].work.Calling?)
    requires SF.Enabled(s.flights, SF.Finish(c, SF.Exception(fault)))
    requires t == s.(flights := SF.Step(s.flights, SF.Finish(c, SF.Exception(fault))), tickets := With(s, c, Ending))
    ensures Inv(t)
  {
    SF.StepKeeps(s.flights, SF.Finish(c, SF.Exception(fault)));
    forall a | a in t.cache ensures EntryOk(t, a) { assert EntryOk(s, a); }
    forall d | d in t.tickets ensures TicketOk(t, d) { assert TicketOk(s, d); }
    forall id | 0 <= id < |t.flights.futures| ensures FutureOk(t, id) { assert FutureOk(s, id); assert SF.CallerOk(s.flights, c); }
    forall i | 0 <= i < |t.calls| ensures CallOk(t, i) { assert CallOk(s, i); }
  }

  lemma ReturnKeeps(s: State, c: Caller, e: SF.Event<Address, Payload, Fault>, t: State)
    requires Inv(s) && c in s.tickets && SF.Enabled(s.flights, e) && e.c == c && (e.Close? || e.Wake?)
    requires !s.tickets[c].work.Replied? && t == Finished(s, c, e)
    ensures Inv(t)
  {
    SF.StepKeeps(s.flights, e);
    assert TicketOk(s, c) && SF.CallerOk(s.flights, c);
    assert FutureOk(s, s.flights.callers[c].id);
    forall a | a in t.cache ensures EntryOk(t, a) { assert EntryOk(s, a); }
    forall d | d in t.tickets ensures TicketOk(t, d) { assert TicketOk(s, d); }
    forall id | 0 <= id < |t.flights.futures| ensures FutureOk(t, id) { assert FutureOk(s, id); }
    forall i | 0 <= i < |t.calls| ensures CallOk(t, i) { assert CallOk(s, i); }
  }

  lemma UpstreamGrows(calls: seq<Call>, more: seq<Call>, a: Address, payload: Payload)
    requires Upstream(calls, a, payload)
    ensures Upstream(calls + more, a, payload)
  {
    var i :| 0 <= i < |calls| && calls[i].address == a && calls[i].payload == payload;
    assert (calls + more)[i] == calls[i];
  }

  /** Only one leader at a time, so this address had not been fetched by anyone. */
  lemma OnlyCaller(s: State, c: Caller, d: Caller)
    requires Inv(s) && c in s.tickets && d in s.tickets && c != d
    requires s.tickets[c].work.Calling? && (s.tickets[d].work.Acquiring? || s.tickets[d].work.Calling?)
    ensures s.tickets[c].address != s.tickets[d].address
  {
    SF.InvMeans(s.flights);
    assert TicketOk(s, c) && TicketOk(s, d);
  }

  lemma StoredKeeps(s: State, c: Caller, payload: Payload, t: State)
    requires Inv(s) && Enabled(s, Reply(c, payload)) && t == Answered(s, c, payload)
    ensures forall a {:trigger EntryOk(t, a)} :: a in t.cache ==> EntryOk(t, a)
    ensures forall i {:trigger CallOk(t, i)} :: 0 <= i < |t.calls| ==> CallOk(t, i)
  {
    assert TicketOk(s, c);
    var own := t.calls[|s.calls|];
    forall a | a in t.cache
      ensures EntryOk(t, a)
    {
      if a == own.address {
        assert t.calls[|s.calls|].address == a && t.calls[|s.calls|].payload == payload;
      } else {
        assert EntryOk(s, a);
        UpstreamGrows(s.calls, [own], a, s.cache[a].payload);
      }
    }
    forall i | 0 <= i < |t.calls|
      ensures CallOk(t, i)
    {
      if i < |s.calls| {
        assert CallOk(s, i) && t.calls[i] == s.calls[i];
        if t.calls[i].address in s.cache { assert EntryOk(s, t.calls[i].address); }
      }
      assert forall j | 0 <= j < |s.calls| :: t.calls[j].address != own.address;
    }
  }

  lemma ReplyKeeps(s: State, c: Caller, payload: Payload, t: State)
    requires Inv(s) && Enabled(s, Reply(c, payload)) && t == Answered(s, c, payload)
    ensures Inv(t)
  {
    SF.StepKeeps(s.flights, SF.Finish(c, SF.Result(payload)));
    StoredKeeps(s, c, payload, t);
    assert TicketOk(s, c) && SF.CallerOk(s.flights, c);
    var own := t.calls[|s.calls|];
    assert Upstream(t.calls, own.address, payload);
    forall d | d in t.tickets
      ensures TicketOk(t, d)
    {
      assert TicketOk(s, d);
      var q := s.tickets[d];
      if d != c {
        if q.work.Acquiring? || q.work.Calling? { OnlyCaller(s, c, d); CalledGrows(s.calls, own, q.address); }
        if q.work.Replied? && q.work.response.Answer? { UpstreamGrows(s.calls, [own], q.address, q.work.response.payload); }
      }
    }
    forall id | 0 <= id < |t.flights.futures|
      ensures FutureOk(t, id)
    {
      assert FutureOk(s, id);
      var was := s.flights.futures[id];
      if was.Resolved? && was.outcome.Result? {
        UpstreamGrows(s.calls, [own], s.flights.callers[s.flights.leaders[id]].key, was.outcome.value);
      }
    }
  }

  lemma CalledGrows(calls: seq<Call>, own: Call, a: Address)
    requires !Called(calls, a) && own.address != a
    ensures !Called(calls + [own], a)
  {}

  lemma StepKeeps(s: State, e: Event)
    requires Inv(s) && Enabled(s, e)
    ensures Inv(Step(s, e))
  {
    var t := Step(s, e);
    match e {
      case Tick(_) => TickKeeps(s, t);
      case Begin(c, r) =>
        if AddressOf(r.tool, r.tenant, r.params, s.now) in s.cache { HitKeeps(s, c, r, t); } else { JoinOrLeadKeeps(s, c, r, t); }
      case Grant(c) => GrantKeeps(s, c, t);
      case Refuse(c) => assert TicketOk(s, c); FaultKeeps(s, c, Throttled, t);
      case Reply(c, payload) => ReplyKeeps(s, c, payload, t);
      case Fault(c, fault) => FaultKeeps(s, c, fault, t);
      case Close(c) => ReturnKeeps(s, c, SF.Close(c), t);
      case Wake(c) => ReturnKeeps(s, c, SF.Wake(c), t);
    }
  }

  // ----- whole runs -----

  predicate Possible(s: State, events: seq<Event>)
    decreases |events|
  {
    events != [] ==> Enabled(s, events[0]) && Possible(Step(s, events[0]), events[1..])
  }

  function After(s: State, events: seq<Event>): State
    requires Possible(s, events)
    decreases |events|
  {
    if events == [] then s else After(Step(s, events[0]), events[1..])
  }

  lemma {:induction false} RunKeeps(s: State, events: seq<Event>)
    requires Inv(s) && Possible(s, events)
    ensures Inv(After(s, events))
    decreases |events|
  {
    if events != [] {
      StepKeeps(s, events[0]);
      RunKeeps(Step(s, events[0]), events[1..]);
    }
  }

  /** The upstream call behind an answer was for the same tool, tenant, time bucket
      and quantized parameters. */
  ghost predicate Backed(calls: seq<Call>, t: Ticket, payload: Payload) {
    exists i :: 0 <= i < |calls| && calls[i].payload == payload && calls[i].address == t.address
      && Quantize(calls[i].params) == Quantize(t.request.params)
      && calls[i].address.tool == t.request.tool && calls[i].address.tenant == t.request.tenant
  }

  /** Over all runs: an answer is what upstream returned for the request's own
      content address; no request ever holds a stale payload to fall back on; and an
      address is fetched successfully at most once. */
  lemma AnswersComeFromUpstream(start: real, events: seq<Event>)
    requires Possible(Init(start), events)
    ensures var s := After(Init(start), events);
      && (forall c | c in s.tickets :: s.tickets[c].cached.None?)
      && (forall c | c in s.tickets && s.tickets[c].work.Replied? && s.tickets[c].work.response.Answer? ::
            !s.tickets[c].work.response.stale && Backed(s.calls, s.tickets[c], s.tickets[c].work.response.payload))
      && (forall i, j | 0 <= i < |s.calls| && 0 <= j < |s.calls| && s.calls[i].address == s.calls[j].address :: i == j)
  {
    RunKeeps(Init(start), events);
    var s := After(Init(start), events);
    forall c | c in s.tickets
      ensures s.tickets[c].cached.None?
      ensures var w := s.tickets[c].work; w.Replied? && w.response.Answer? ==>
        !w.response.stale && Backed(s.calls, s.tickets[c], w.response.payload)
    {
      assert TicketOk(s, c);
      var w := s.tickets[c].work;
      if w.Replied? && w.response.Answer? {
        var i :| 0 <= i < |s.calls| && s.calls[i].address == s.tickets[c].address && s.calls[i].payload == w.response.payload;
        assert CallOk(s, i);
      }
    }
    forall i, j | 0 <= i < |s.calls| && 0 <= j < |s.calls| && s.calls[i].address == s.calls[j].address
      ensures i == j
    {
      assert CallOk(s, i) && CallOk(s, j);
    }
  }

  /** Over all runs: whenever a request comes in, the cache holds a fresh entry for its
      address, less than one bucket old, or no entry at all and then none was fetched:
      the stale answers of the cache are never given. */
  lemma CacheIsFreshOrSilent(start: real, events: seq<Event>, r: Request)
    requires Possible(Init(start), events)
    ensures var s := After(Init(start), events);
      var a := AddressOf(r.tool, r.tenant, r.params, s.now);
      match Lookup(s.cache, a, s.now)
      case Fresh(payload) => a in s.cache && s.now - s.cache[a].created < BUCKET as real && Upstream(s.calls, a, payload)
      case Miss => a !in s.cache && !Called(s.calls, a)
      case Stale(_) => false
  {
    RunKeeps(Init(start), events);
    var s := After(Init(start), events);
    var a := AddressOf(r.tool, r.tenant, r.params, s.now);
    MissMeansNew(s, r);
    if a in s.cache {
      assert EntryOk(s, a);
      CurrentBucketIsFresh(s.cache, a, s.now);
    }
  }
}
