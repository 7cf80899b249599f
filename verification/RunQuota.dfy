/** The quota object. A queue is a sequence that methods reassign; every method runs
    under the object's lock. */
module RunQuotas {
  import opened Common
  import opened Quota

  datatype Snapshot = Snapshot(enabled: bool, inWindow: nat, retryAfter: int)

  class RunQuota {
    const limits: Limits
    var all: seq<real>
    var sessions: map<string, seq<real>>

    ghost function View(): State
      reads this
    {
      State(all, sessions)
    }

    constructor (limits: Limits)
      ensures this.limits == limits && View() == State([], map[])
    {
      this.limits, all, sessions := limits, [], map[];
    }

    predicate Enabled() { limits.perSession > 0 || limits.perDeployment > 0 }

    method Prune(stamps: seq<real>, now: real) returns (kept: seq<real>)
      ensures kept == Pruned(stamps, now, limits.window)
    {
      kept := stamps;
      var cutoff := now - limits.window;
      while kept != [] && kept[0] <= cutoff
        invariant Pruned(kept, now, limits.window) == Pruned(stamps, now, limits.window)
        decreases |kept|
      {
        kept := kept[1..];
      }
    }

    /** Prunes both queues; an empty session queue also clears out every empty one. */
    method Open(session: string, now: real) returns (mine: seq<real>)
      modifies this
      ensures View() == Opened(old(View()), session, now, limits.window) && mine == Queue(View(), session)
    {
      all := Prune(all, now);
      mine := if session in sessions then sessions[session] else [];
      mine := Prune(mine, now);
      sessions := sessions[session := mine];
      if mine == [] {
        sessions := map k | k in sessions && sessions[k] != [] :: sessions[k];
        sessions := sessions[session := []];
      }
    }

    method ReserveRun(session: string, now: real) returns (refusal: Option<Refusal>)
      modifies this
      ensures View() == Reserve(limits, old(View()), session, now)
      ensures refusal == Blocked(limits, Opened(old(View()), session, now, limits.window), session, now)
    {
      var mine := Open(session, now);
      if 0 < limits.perSession <= |mine| {
        return Some(Refusal(Session, limits.perSession, limits.window, RetryAfter(mine, now, limits.window)));
      }
      if 0 < limits.perDeployment <= |all| {
        return Some(Refusal(Deployment, limits.perDeployment, limits.window, RetryAfter(all, now, limits.window)));
      }
      all := all + [now];
      sessions := sessions[session := mine + [now]];
      refusal := None;
    }

    method RefundRun(session: string)
      modifies this
      ensures View() == Refund(old(View()), session)
    {
      if all != [] { all := all[..|all| - 1]; }
      if session in sessions && sessions[session] != [] {
        var mine := sessions[session];
        sessions := sessions[session := mine[..|mine| - 1]];
      }
    }

    method TakeSnapshot(now: real) returns (r: Snapshot)
      modifies this
      ensures View() == State(Pruned(old(all), now, limits.window), old(sessions))
      ensures r.inWindow == |all| && (r.enabled <==> Enabled())
      ensures r.retryAfter == if 0 < limits.perDeployment <= |all| then RetryAfter(all, now, limits.window) else 0
    {
      all := Prune(all, now);
      var wait := if 0 < limits.perDeployment <= |all| then RetryAfter(all, now, limits.window) else 0;
      r := Snapshot(Enabled(), |all|, wait);
    }
  }
}
