/** A refund that pops another run's stamp: exactly when a limit can be exceeded after it. */
module Overtaking {
  import opened Common
  import opened Quota

  // ----- one queue -----

  lemma {:induction false} WithinWithout(times: seq<real>, k: nat, from: real, to: real)
    requires k < |times| && times[k] <= from
    ensures Within(RemoveAt(times, k), from, to) == Within(times, from, to)
  {
    var n := |times| - 1;
    RemoveAtFront(times, k);
    if k < n {
      WithinWithout(times[..n], k, from, to);
      WithinMore(RemoveAt(times[..n], k), times[n], from, to);
    }
  }

  lemma WithinMore(front: seq<real>, t: real, from: real, to: real)
    ensures Within(front + [t], from, to) == Within(front, from, to) + if from < t <= to then [t] else []
  {
    assert (front + [t])[..|front|] == front;
  }

  function Later(a: real, b: real): real { if a <= b then b else a }

  /** After the pop took the newest stamp in place of an older one, there is an instant at
      which the queue knows one run less than the window holds. */
  lemma GapOpens(queue: seq<real>, times: seq<real>, k: nat, limit: int, window: real, was: real, at: real) returns (now: real)
    requires QueueOk(queue, times, limit, window, was) && was <= at && k < |times| && 0 < limit && 0.0 < window
    requires !Harmless(times, times[k], window, at)
    ensures at <= now
    ensures var known := |Pruned(ButLast(queue), now, window)|;
      known < limit && |Within(RemoveAt(times, k), now - window, now)| == known + 1
  {
    var last := times[|times| - 1];
    PacedAscends(times, limit, window);
    assert times[k] < last;
    now := Later(at, times[k] + window);
    PopKeeps(queue, times, limit, window, was, now);
    PruneKeeps(ButLast(queue), ButLast(times), limit, window, now, now);
    WithinWithout(times, k, now - window, now);
    assert times == ButLast(times) + [last];
    WithinMore(ButLast(times), last, now - window, now);
    PacedMeansLimited(times, limit, window, now);
  }

  lemma ExpiredIsHarmless(queue: seq<real>, times: seq<real>, stamp: real, limit: int, window: real, was: real, at: real)
    requires Sound(queue, times, limit, window, was) && was <= at && !Harmless(times, stamp, window, at)
    ensures QueueOk(queue, times, limit, window, was)
  {}

  /** A pruned queue stays as it is when a stamp of the same instant joins it. */
  lemma {:induction false} PrunedStable(queue: seq<real>, now: real, window: real)
    requires 0.0 < window
    ensures var more := Pruned(queue, now, window) + [now]; Pruned(more, now, window) == more
  {
    PrunedHead(queue, now, window);
  }

  // ----- filling up -----

  predicate OnlyStarts(ops: seq<Op>) { forall i {:trigger ops[i]} :: 0 <= i < |ops| ==> ops[i].Start_? }

  lemma PathCons(limits: Limits, w: World, op: Op, ws: seq<World>, ops: seq<Op>)
    requires Possible(w, op) && Path(limits, ws, ops) && ws[0] == Next(limits, w, op)
    ensures Path(limits, [w] + ws, [op] + ops)
    ensures op.Start_? && OnlyStarts(ops) ==> OnlyStarts([op] + ops)
  {
    var all, steps := [w] + ws, [op] + ops;
    forall i {:trigger steps[i]} | 0 <= i < |steps|
      ensures Possible(all[i], steps[i]) && all[i + 1] == Next(limits, all[i], steps[i])
      ensures op.Start_? && OnlyStarts(ops) ==> steps[i].Start_?
    {
      if i > 0 { assert steps[i] == ops[i - 1] && all[i] == ws[i - 1] && all[i + 1] == ws[i]; }
    }
  }

  lemma PathJoin(limits: Limits, ws: seq<World>, ops: seq<Op>, vs: seq<World>, more: seq<Op>)
    requires Path(limits, ws, ops) && Path(limits, vs, more) && ws[|ws| - 1] == vs[0]
    ensures Path(limits, ws + vs[1..], ops + more)
  {
    var all, steps := ws + vs[1..], ops + more;
    forall i {:trigger steps[i]} | 0 <= i < |steps|
      ensures Possible(all[i], steps[i]) && all[i + 1] == Next(limits, all[i], steps[i])
    {
      if i < |ops| {
        assert steps[i] == ops[i];
      } else {
        var j := i - |ops|;
        assert steps[i] == more[j] && all[i] == vs[j] && all[i + 1] == vs[j + 1];
      }
    }
  }

  lemma {:induction false} LongerThanAll(names: set<string>) returns (n: nat)
    ensures forall name :: name in names ==> |name| < n
  {
    if names == {} {
      n := 0;
    } else {
      var name :| name in names;
      n := LongerThanAll(names - {name});
      if n <= |name| { n := |name| + 1; }
    }
  }

  /** A session that never started anything. */
  lemma NewSession(s: State) returns (session: string)
    ensures session !in s.sessions
  {
    var n := LongerThanAll(s.sessions.Keys);
    session := seq(n, _ => 'x');
  }

  /** A start that both limits allow. */
  lemma StartJoins(limits: Limits, w: World, session: string, now: real)
    requires w.now <= now && Refused(limits, w, session, now).None?
    ensures var v := Next(limits, w, Start_(session, now));
      && v.s.all == Pruned(w.s.all, now, limits.window) + [now]
      && Queue(v.s, session) == Pruned(Queue(w.s, session), now, limits.window) + [now]
      && v.h == w.h + [Start(session, now)] && v.now == now
  {
    QueueAfterOpen(w.s, session, now, limits.window, session);
  }

  lemma NewSessionAllowed(limits: Limits, w: World, session: string, now: real)
    requires session !in w.s.sessions && |Pruned(w.s.all, now, limits.window)| < limits.perDeployment
    ensures Refused(limits, w, session, now).None?
  {
    QueueAfterOpen(w.s, session, now, limits.window, session);
  }

  function Recent(limits: Limits, h: seq<Start>, now: real): nat { |Within(Times(h), now - limits.window, now)| }

  lemma OneMoreRecent(limits: Limits, h: seq<Start>, session: string, now: real)
    requires 0.0 < limits.window
    ensures Recent(limits, h + [Start(session, now)], now) == Recent(limits, h, now) + 1
  {
    OneMore(h, Start(session, now), session);
    WithinMore(Times(h), now, now - limits.window, now);
  }

  /** New sessions start at one instant until the deployment's queue is full. */
  lemma {:induction false} FillDeployment(limits: Limits, w: World, now: real, more: nat) returns (ws: seq<World>, ops: seq<Op>)
    requires 0.0 < limits.window && w.now <= now && |Pruned(w.s.all, now, limits.window)| + more == limits.perDeployment
    ensures Path(limits, ws, ops) && OnlyStarts(ops) && ws[0] == w
    ensures Recent(limits, ws[|ws| - 1].h, now) == Recent(limits, w.h, now) + more
    decreases more
  {
    if more == 0 {
      ws, ops := [w], [];
    } else {
      var session := NewSession(w.s);
      var op := Start_(session, now);
      NewSessionAllowed(limits, w, session, now);
      StartJoins(limits, w, session, now);
      PrunedStable(w.s.all, now, limits.window);
      OneMoreRecent(limits, w.h, session, now);
      var rest, steps := FillDeployment(limits, Next(limits, w, op), now, more - 1);
      PathCons(limits, w, op, rest, steps);
      ws, ops := [w] + rest, [op] + steps;
    }
  }

  // ----- the deployment's limit -----

  ghost predicate DeploymentWithin(limits: Limits, w: World) {
    forall x: real :: Recent(limits, w.h, x) <= limits.perDeployment
  }

  /** However a run goes on without another harmful refund, the limit holds. */
  ghost predicate DeploymentSafe(limits: Limits, w: World) {
    forall ws: seq<World>, ops: seq<Op> :: Path(limits, ws, ops) && ws[0] == w && AllHarmless(limits, ws, ops) ==> DeploymentWithin(limits, ws[|ws| - 1])
  }

  lemma SoundIsSafe(limits: Limits, w: World)
    requires AllSound(limits, w.s, w.h, w.now) && 0 < limits.perDeployment
    ensures DeploymentSafe(limits, w)
  {
    forall ws: seq<World>, ops: seq<Op> | Path(limits, ws, ops) && ws[0] == w && AllHarmless(limits, ws, ops)
      ensures DeploymentWithin(limits, ws[|ws| - 1])
    {
      var v: World := ws[|ws| - 1];
      PathOfAll(limits, ws, ops, |ws| - 1);
      forall x: real ensures Recent(limits, v.h, x) <= limits.perDeployment {
        SoundLimited(v.s.all, Times(v.h), limits.perDeployment, limits.window, v.now, x);
      }
    }
  }

  /** How a run goes on to exceed the limit by one. */
  lemma OvertakenOveradmits(limits: Limits, w: World, k: nat, at: real) returns (ws: seq<World>, ops: seq<Op>, now: real)
    requires AllSound(limits, w.s, w.h, w.now) && 0 < limits.perDeployment && 0.0 < limits.window
    requires k < |w.h| && w.now <= at && !Harmless(Times(w.h), w.h[k].at, limits.window, at)
    ensures Path(limits, ws, ops) && OnlyStarts(ops) && ws[0] == Next(limits, w, Return(k, at))
    ensures Recent(limits, ws[|ws| - 1].h, now) == limits.perDeployment + 1
  {
    var v := Next(limits, w, Return(k, at));
    now := DeploymentGap(limits, w, k, at);
    ws, ops := FillDeployment(limits, v, now, limits.perDeployment - |Pruned(v.s.all, now, limits.window)|);
  }

  lemma DeploymentGap(limits: Limits, w: World, k: nat, at: real) returns (now: real)
    requires AllSound(limits, w.s, w.h, w.now) && 0 < limits.perDeployment && 0.0 < limits.window
    requires k < |w.h| && w.now <= at && !Harmless(Times(w.h), w.h[k].at, limits.window, at)
    ensures at <= now
    ensures var v := Next(limits, w, Return(k, at));
      var known := |Pruned(v.s.all, now, limits.window)|;
      v.now == at && known < limits.perDeployment && Recent(limits, v.h, now) == known + 1
  {
    RefundStep(limits, w, k, at);
    ExpiredIsHarmless(w.s.all, Times(w.h), w.h[k].at, limits.perDeployment, limits.window, w.now, at);
    now := GapOpens(w.s.all, Times(w.h), k, limits.perDeployment, limits.window, w.now, at);
  }

  lemma RefundStep(limits: Limits, w: World, k: nat, at: real)
    requires k < |w.h| && w.now <= at
    ensures var v := Next(limits, w, Return(k, at));
      && v.s.all == ButLast(w.s.all) && v.now == at
      && k < |Times(w.h)| && Times(w.h)[k] == w.h[k].at && Times(v.h) == RemoveAt(Times(w.h), k)
  {
    TimesAt(w.h, k);
    TimesWithout(w.h, k);
  }

  /** After a refund of run `k` the deployment's limit holds however the run goes on, if and
      only if the popped stamp is that of run `k` or all stamps have left the window. */
  lemma RefundKeepsLimitExactly(limits: Limits, w: World, k: nat, at: real)
    requires AllSound(limits, w.s, w.h, w.now) && 0 < limits.perDeployment && 0.0 < limits.window
    requires k < |w.h| && w.now <= at
    ensures DeploymentSafe(limits, Next(limits, w, Return(k, at))) <==> Harmless(Times(w.h), w.h[k].at, limits.window, at)
  {
    var v := Next(limits, w, Return(k, at));
    if Harmless(Times(w.h), w.h[k].at, limits.window, at) {
      RefundKeepsAll(limits, w.s, w.h, w.now, k, at);
      SoundIsSafe(limits, v);
    } else {
      var ws, ops, now := OvertakenOveradmits(limits, w, k, at);
      assert AllHarmless(limits, ws, ops);
      assert Recent(limits, ws[|ws| - 1].h, now) > limits.perDeployment;
      assert !DeploymentWithin(limits, ws[|ws| - 1]);
    }
  }

  // ----- a session's limit -----

  ghost predicate SessionWithin(limits: Limits, w: World, session: string) {
    forall x: real :: RecentOf(limits, w.h, session, x) <= limits.perSession
  }

  ghost predicate SessionSafe(limits: Limits, w: World, session: string) {
    forall ws: seq<World>, ops: seq<Op> :: Path(limits, ws, ops) && ws[0] == w && OwnHarmless(limits, ws, ops, session) ==>
      SessionWithin(limits, ws[|ws| - 1], session)
  }

  lemma SoundSessionIsSafe(limits: Limits, w: World, session: string)
    requires SessionSound(limits, w.s, w.h, w.now, session) && 0 < limits.perSession
    ensures SessionSafe(limits, w, session)
  {
    forall ws: seq<World>, ops: seq<Op> | Path(limits, ws, ops) && ws[0] == w && OwnHarmless(limits, ws, ops, session)
      ensures SessionWithin(limits, ws[|ws| - 1], session)
    {
      var v: World := ws[|ws| - 1];
      PathOfSession(limits, ws, ops, |ws| - 1, session);
      forall x: real ensures RecentOf(limits, v.h, session, x) <= limits.perSession {
        SoundLimited(Queue(v.s, session), Of(v.h, session), limits.perSession, limits.window, v.now, x);
      }
    }
  }

  function RecentOf(limits: Limits, h: seq<Start>, session: string, now: real): nat {
    |Within(Of(h, session), now - limits.window, now)|
  }

  lemma OneMoreRecentOf(limits: Limits, h: seq<Start>, session: string, now: real)
    requires 0.0 < limits.window
    ensures RecentOf(limits, h + [Start(session, now)], session, now) == RecentOf(limits, h, session, now) + 1
  {
    OneMore(h, Start(session, now), session);
    WithinMore(Of(h, session), now, now - limits.window, now);
  }

  /** A session starts runs at one instant until its queue is full. */
  lemma {:induction false} FillSession(limits: Limits, w: World, session: string, now: real, more: nat)
    returns (ws: seq<World>, ops: seq<Op>)
    requires 0.0 < limits.window && limits.perDeployment <= 0 && w.now <= now
    requires |Pruned(Queue(w.s, session), now, limits.window)| + more == limits.perSession
    ensures Path(limits, ws, ops) && OnlyStarts(ops) && ws[0] == w
    ensures RecentOf(limits, ws[|ws| - 1].h, session, now) == RecentOf(limits, w.h, session, now) + more
    decreases more
  {
    if more == 0 {
      ws, ops := [w], [];
    } else {
      var op := Start_(session, now);
      QueueAfterOpen(w.s, session, now, limits.window, session);
      StartJoins(limits, w, session, now);
      PrunedStable(Queue(w.s, session), now, limits.window);
      OneMoreRecentOf(limits, w.h, session, now);
      var rest, steps := FillSession(limits, Next(limits, w, op), session, now, more - 1);
      PathCons(limits, w, op, rest, steps);
      ws, ops := [w] + rest, [op] + steps;
    }
  }

  lemma OvertakenSessionOveradmits(limits: Limits, w: World, k: nat, at: real) returns (ws: seq<World>, ops: seq<Op>, now: real)
    requires k < |w.h| && w.now <= at && limits.perDeployment <= 0 && 0 < limits.perSession && 0.0 < limits.window
    requires SessionSound(limits, w.s, w.h, w.now, w.h[k].session)
    requires !Harmless(Of(w.h, w.h[k].session), w.h[k].at, limits.window, at)
    ensures Path(limits, ws, ops) && OnlyStarts(ops) && ws[0] == Next(limits, w, Return(k, at))
    ensures RecentOf(limits, ws[|ws| - 1].h, w.h[k].session, now) == limits.perSession + 1
  {
    var v, session := Next(limits, w, Return(k, at)), w.h[k].session;
    var queue, of := Queue(w.s, session), Of(w.h, session);
    var j := OfWithout(w.h, k);
    ExpiredIsHarmless(queue, of, w.h[k].at, limits.perSession, limits.window, w.now, at);
    now := GapOpens(queue, of, j, limits.perSession, limits.window, w.now, at);
    assert Queue(v.s, session) == ButLast(queue);
    ws, ops := FillSession(limits, v, session, now, limits.perSession - |Pruned(ButLast(queue), now, limits.window)|);
  }

  /** The same of a session's limit and its own runs, when the deployment's is off. */
  lemma RefundKeepsSessionLimitExactly(limits: Limits, w: World, k: nat, at: real)
    requires k < |w.h| && w.now <= at && limits.perDeployment <= 0 && 0 < limits.perSession && 0.0 < limits.window
    requires SessionSound(limits, w.s, w.h, w.now, w.h[k].session)
    ensures SessionSafe(limits, Next(limits, w, Return(k, at)), w.h[k].session)
       <==> Harmless(Of(w.h, w.h[k].session), w.h[k].at, limits.window, at)
  {
    var v, session := Next(limits, w, Return(k, at)), w.h[k].session;
    if Harmless(Of(w.h, session), w.h[k].at, limits.window, at) {
      RefundKeepsSession(limits, w.s, w.h, w.now, k, at, session);
      SoundSessionIsSafe(limits, v, session);
    } else {
      var ws, ops, now := OvertakenSessionOveradmits(limits, w, k, at);
      assert OwnHarmless(limits, ws, ops, session);
      assert RecentOf(limits, ws[|ws| - 1].h, session, now) > limits.perSession;
      assert !SessionWithin(limits, ws[|ws| - 1], session);
    }
  }

  // ----- from the beginning -----

  /** A run, and another a whole window later. */
  lemma TwoRuns(limits: Limits, a: string, b: string, first: real) returns (ws: seq<World>, ops: seq<Op>)
    requires 0 < limits.perDeployment && 0.0 < limits.window
    ensures IsRun(limits, ws, ops) && OnlyStarts(ops) && |ops| == 2 && ws[0].now == first && ws[2].now == first + limits.window
    ensures ws[2].h == [Start(a, first), Start(b, first + limits.window)]
  {
    var w0, second := Beginning(first), first + limits.window;
    QueueAfterOpen(w0.s, a, first, limits.window, a);
    StartJoins(limits, w0, a, first);
    var w1 := Next(limits, w0, Start_(a, first));
    AllPruned([first], second, limits.window);
    OldRunsPruned(limits, w1, a, b, first, second);
    StartJoins(limits, w1, b, second);
    var w2 := Next(limits, w1, Start_(b, second));
    assert [] + [Start(a, first)] + [Start(b, second)] == [Start(a, first), Start(b, second)];
    var end: seq<Op> := [];
    PathCons(limits, w1, Start_(b, second), [w2], end);
    PathCons(limits, w0, Start_(a, first), [w1] + [w2], [Start_(b, second)] + end);
    ws, ops := [w0] + ([w1] + [w2]), [Start_(a, first)] + ([Start_(b, second)] + end);
  }

  lemma OldRunsPruned(limits: Limits, w: World, a: string, b: string, first: real, second: real)
    requires 0 < limits.perDeployment && second == first + limits.window && w.s == Next(limits, Beginning(first), Start_(a, first)).s
    requires w.s.all == [first] && Queue(w.s, a) == [first]
    ensures Refused(limits, w, b, second).None?
  {
    AllPruned([first], second, limits.window);
    QueueAfterOpen(w.s, b, second, limits.window, b);
    if b != a { QueueAfterReserve(limits, Beginning(first).s, a, first, b); }
  }

  /** Whatever the deployment's limit: a run of starts and one refund, of a run that another
      one overtook, that lets in one start more than the limit within one window. */
  lemma OvertakenRefundOveradmits(limits: Limits, a: string, b: string, first: real)
    returns (ws: seq<World>, ops: seq<Op>, now: real)
    requires 0 < limits.perDeployment && 0.0 < limits.window
    ensures IsRun(limits, ws, ops) && ws[0].now == first
    ensures |Within(Times(ws[|ws| - 1].h), now - limits.window, now)| == limits.perDeployment + 1
  {
    var us, starts := TwoRuns(limits, a, b, first);
    var w, at := us[2], first + limits.window;
    assert AllHarmless(limits, us, starts);
    RunOfAll(limits, us, starts, 2);
    TimesAt(w.h, 0);
    TimesAt(w.h, 1);
    var vs, more;
    vs, more, now := OvertakenOveradmits(limits, w, 0, at);
    PathCons(limits, w, Return(0, at), vs, more);
    PathJoin(limits, us, starts, [w] + vs, [Return(0, at)] + more);
    ws, ops := us + ([w] + vs)[1..], starts + ([Return(0, at)] + more);
    assert ([w] + vs)[1..] == vs;
  }
}
