/** The gateway process: its cache, its singleflight group, its counters and its
    call log. A method is the code between two awaits of one request. */
module GatewayPipeline {
  import opened Common
  import opened QueryCache
  import opened Gateway
  import SF = Singleflight

  const LOG_LIMIT: nat := 500

  datatype LogEntry = LogEntry(tool: string, tenant: string, cacheHit: bool, stale: bool)

  /** Appending to a bounded log drops its oldest entry. */
  function Logged(log: seq<LogEntry>, e: LogEntry): (r: seq<LogEntry>)
    requires |log| <= LOG_LIMIT
    ensures |r| <= LOG_LIMIT
  {
    (if |log| < LOG_LIMIT then log else log[1..]) + [e]
  }

  class Pipeline {
    const cache: QuantizedCache
    const group: SF.SingleFlightGroup<Address, Payload, Fault>
    var tickets: map<Caller, Ticket>
    var total: nat
    var hits: nat
    var log: seq<LogEntry>
    ghost var now: real
    ghost var calls: seq<Call>

    ghost function View(): State
      reads this, cache, group
    {
      State(now, cache.entries, group.View(), tickets, calls)
    }

    ghost predicate Valid()
      reads this
    {
      |log| <= LOG_LIMIT
    }

    constructor (start: real)
      ensures Valid() && View() == Init(start) && total == 0 && hits == 0 && log == []
      ensures fresh(cache) && fresh(group)
    {
      cache := new QuantizedCache();
      group := new SF.SingleFlightGroup();
      tickets, total, hits, log, now, calls := map[], 0, 0, [], start, [];
    }

    /** Between steps only the clock moves. */
    ghost method Wait(later: real)
      requires Valid() && now <= later
      modifies this`now
      ensures Valid() && View() == Step(old(View()), Tick(later))
    {
      now := later;
    }

    /** A request comes in: cache lookup, then the flight for its key. */
    method Receive(c: Caller, r: Request, clock: real)
      requires Valid() && clock == now && c !in tickets && c !in group.callers
      modifies this, cache, group
      ensures Valid() && View() == Step(old(View()), Begin(c, r))
      ensures total == old(total) + 1
      ensures tickets[c].work.Replied? ==> hits == old(hits) + 1 && log == Logged(old(log), LogEntry(r.tool, r.tenant, true, false))
      ensures !tickets[c].work.Replied? ==> hits == old(hits) && log == old(log)
    {
      total := total + 1;
      var a := AddressOf(r.tool, r.tenant, r.params, clock);
      var found := cache.Get(a, clock);
      if found.Fresh? {
        hits := hits + 1;
        log := Logged(log, LogEntry(r.tool, r.tenant, true, false));
        tickets := tickets[c := Ticket(r, a, None, Replied(Answer(found.payload, true, false)))];
      } else {
        var cached := if found.Stale? then Some(found.payload) else None;
        var leader := group.Enter(c, a);
        tickets := tickets[c := Ticket(r, a, cached, if leader then Acquiring else Joined)];
      }
    }

    /** The limiter answers the leader. */
    method Limited(c: Caller, acquired: bool)
      requires Valid() && Enabled(View(), if acquired then Grant(c) else Refuse(c))
      modifies this, group
      ensures Valid() && View() == Step(old(View()), if acquired then Grant(c) else Refuse(c))
      ensures total == old(total) && hits == old(hits) && log == old(log)
    {
      var t := tickets[c];
      if acquired {
        tickets := tickets[c := t.(work := Calling)];
      } else {
        if t.cached.Some? {
          group.Finish(c, SF.Result(t.cached.value));
        } else {
          group.Finish(c, SF.Exception(Throttled));
        }
        tickets := tickets[c := t.(work := Ending)];
      }
    }

    /** Upstream answered the leader: store, then resolve. */
    method Fetched(c: Caller, payload: Payload, clock: real)
      requires Valid() && clock == now && Enabled(View(), Reply(c, payload))
      modifies this, cache, group
      ensures Valid() && View() == Step(old(View()), Reply(c, payload))
      ensures total == old(total) && hits == old(hits) && log == old(log)
    {
      var t := tickets[c];
      cache.Set(t.address, payload, Ttl(t.address.tool), clock);
      group.Finish(c, SF.Result(payload));
      calls := calls + [Call(t.address, t.request.params, payload)];
      tickets := tickets[c := t.(work := Ending)];
    }

    /** The upstream call raised. */
    method Raised(c: Caller, fault: Fault)
      requires Valid() && Enabled(View(), Event.Fault(c, fault))
      modifies this, group
      ensures Valid() && View() == Step(old(View()), Event.Fault(c, fault))
      ensures total == old(total) && hits == old(hits) && log == old(log)
    {
      group.Finish(c, SF.Exception(fault));
      tickets := tickets[c := tickets[c].(work := Ending)];
    }

    /** The flight is over for this caller: answer, with the fallbacks of the handler. */
    method Finish(c: Caller) returns (response: Response)
      requires Valid() && c in tickets && (tickets[c].work.Ending? || tickets[c].work.Joined?)
      requires Enabled(View(), if tickets[c].work.Ending? then Close(c) else Wake(c))
      modifies this, group
      ensures Valid() && View() == Step(old(View()), if old(tickets[c].work.Ending?) then Close(c) else Wake(c))
      ensures tickets[c].work == Replied(response) && total == old(total) && hits == old(hits)
      ensures var r := tickets[c].request;
        log == if response.Answer? then Logged(old(log), LogEntry(r.tool, r.tenant, false, response.stale)) else old(log)
    {
      var t := tickets[c];
      var outcome: SF.Outcome<Payload, Fault>;
      if t.work.Ending? { outcome := group.Close(c); } else { outcome := group.Wake(c); }
      var stale := t.cached.Some?;
      if outcome.Result? {
        response := Answer(outcome.value, false, stale);
      } else if outcome.error.Throttled? {
        response := Failure(429);
      } else if t.cached.Some? {
        stale := true;
        response := Answer(t.cached.value, false, stale);
      } else {
        response := Failure(if outcome.error.Unavailable? then 503 else 502);
      }
      if response.Answer? {
        log := Logged(log, LogEntry(t.request.tool, t.request.tenant, false, stale));
      }
      tickets := tickets[c := t.(work := Replied(response))];
    }
  }
}
