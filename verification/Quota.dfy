/** The sliding-window quota on investigation starts: what its queues of stamps mean
    for the full history of admitted runs. */
module Quota {
  import opened Common

  /** A non-positive limit switches that half off. */
  datatype Limits = Limits(perSession: int, perDeployment: int, window: real)

  datatype Scope = Session | Deployment

  datatype Refusal = Refusal(scope: Scope, limit: int, window: real, retryAfter: int)

  datatype State = State(all: seq<real>, sessions: map<string, seq<real>>)

  /** One admitted run. */
  datatype Start = Start(session: string, at: real)

  // ----- the program -----

  /** Pops stamps that left the window, oldest first. */
  function Pruned(stamps: seq<real>, now: real, window: real): seq<real> {
    if stamps != [] && stamps[0] <= now - window then Pruned(stamps[1..], now, window) else stamps
  }

  /** Whole seconds until the oldest stamp leaves the window. */
  function RetryAfter(stamps: seq<real>, now: real, window: real): int {
    if stamps == [] then 0
    else
      var seconds := Truncate(stamps[0] + window - now) + 1;
      if seconds < 1 then 1 else seconds
  }

  /** Rounding towards zero. */
  function Truncate(x: real): int { if x >= 0.0 then x.Floor else -((-x).Floor) }

  function Queue(s: State, session: string): seq<real> {
    if session in s.sessions then s.sessions[session] else []
  }

  /** Both queues pruned; an empty session queue also clears out every empty one. */
  function Opened(s: State, session: string, now: real, window: real): State {
    var mine := Pruned(Queue(s, session), now, window);
    var others := if mine == [] then map k | k in s.sessions && k != session && s.sessions[k] != [] :: s.sessions[k] else s.sessions;
    State(Pruned(s.all, now, window), others[session := mine])
  }

  /** The limit that a start now would exceed; the session's own comes first. */
  function Exhausted(limits: Limits, s: State, session: string): Option<Scope> {
    if 0 < limits.perSession <= |Queue(s, session)| then Some(Session)
    else if 0 < limits.perDeployment <= |s.all| then Some(Deployment)
    else None
  }

  function Blocked(limits: Limits, s: State, session: string, now: real): Option<Refusal> {
    match Exhausted(limits, s, session)
    case None => None
    case Some(Session) => Some(Refusal(Session, limits.perSession, limits.window, RetryAfter(Queue(s, session), now, limits.window)))
    case Some(Deployment) => Some(Refusal(Deployment, limits.perDeployment, limits.window, RetryAfter(s.all, now, limits.window)))
  }

  function Admitted(s: State, session: string, now: real): State {
    State(s.all + [now], s.sessions[session := Queue(s, session) + [now]])
  }

  function Reserve(limits: Limits, s: State, session: string, now: real): State {
    var o := Opened(s, session, now, limits.window);
    if Exhausted(limits, o, session).Some? then o else Admitted(o, session, now)
  }

  function ButLast(xs: seq<real>): seq<real> { if xs == [] then [] else xs[..|xs| - 1] }

  /** Pops the newest stamp of the deployment and the newest of the session. */
  function Refund(s: State, session: string): State {
    State(ButLast(s.all), if Queue(s, session) == [] then s.sessions else s.sessions[session := ButLast(s.sessions[session])])
  }

  // ----- the history behind the queues -----

  function Times(h: seq<Start>): seq<real> {
    if h == [] then [] else Times(h[..|h| - 1]) + [h[|h| - 1].at]
  }

  function Of(h: seq<Start>, session: string): seq<real> {
    if h == [] then []
    else Of(h[..|h| - 1], session) + if h[|h| - 1].session == session then [h[|h| - 1].at] else []
  }

  /** The stamps in the half-open window `(from, to]`. */
  function Within(xs: seq<real>, from: real, to: real): seq<real> {
    if xs == [] then []
    else Within(xs[..|xs| - 1], from, to) + if from < xs[|xs| - 1] <= to then [xs[|xs| - 1]] else []
  }

  predicate Ascending(xs: seq<real>) { forall i, j :: 0 <= i < j < |xs| ==> xs[i] <= xs[j] }

  /** Starts in order, and any start a window or more after the one `limit` places before it. */
  predicate Paced(times: seq<real>, limit: int, window: real)
    decreases |times|
  {
    times != [] ==>
      var n := |times|;
      && Paced(times[..n - 1], limit, window)
      && (n > 1 ==> times[n - 2] <= times[n - 1])
      && (0 < limit < n ==> times[n - 1 - limit] + window <= times[n - 1])
  }

  predicate Suffix(queue: seq<real>, times: seq<real>)
    requires |queue| <= |times|
    decreases |queue|
  {
    queue != [] ==>
      && queue[|queue| - 1] == times[|times| - 1]
      && Suffix(queue[..|queue| - 1], times[..|times| - 1])
  }

  /** The queue holds the newest stamps; what it lost is out of the window. */
  predicate Tracks(queue: seq<real>, times: seq<real>, cutoff: real) {
    && |queue| <= |times| && Suffix(queue, times)
    && (|queue| < |times| ==> times[|times| - |queue| - 1] <= cutoff)
  }

  /** A queue against the times it should know of. */
  predicate QueueOk(queue: seq<real>, times: seq<real>, limit: int, window: real, now: real) {
    Paced(times, limit, window) && (times != [] ==> times[|times| - 1] <= now) && Tracks(queue, times, now - window)
  }

  /** What the queue still holds is out of the window, and so is its whole history. */
  predicate Expired(queue: seq<real>, times: seq<real>, limit: int, window: real, now: real) {
    && Paced(times, limit, window) && 0.0 <= window
    && (times != [] ==> times[|times| - 1] <= now - window)
    && forall t :: t in queue ==> t <= now - window
  }

  predicate Sound(queue: seq<real>, times: seq<real>, limit: int, window: real, now: real) {
    QueueOk(queue, times, limit, window, now) || Expired(queue, times, limit, window, now)
  }

  predicate AllSound(limits: Limits, s: State, h: seq<Start>, now: real) {
    Sound(s.all, Times(h), limits.perDeployment, limits.window, now)
  }

  predicate SessionSound(limits: Limits, s: State, h: seq<Start>, now: real, session: string) {
    Sound(Queue(s, session), Of(h, session), limits.perSession, limits.window, now)
  }

  // ----- pruning is filtering -----

  lemma {:induction false} PacedAscends(times: seq<real>, limit: int, window: real)
    requires Paced(times, limit, window)
    ensures Ascending(times)
    decreases |times|
  {
    if |times| > 1 {
      var front := times[..|times| - 1];
      PacedAscends(front, limit, window);
      forall i, j | 0 <= i < j < |times| ensures times[i] <= times[j] {
        if j == |times| - 1 && i < j - 1 { assert front[i] <= front[j - 1]; }
        else if j < |times| - 1 { assert front[i] <= front[j]; }
      }
    }
  }

  lemma {:induction false} SuffixIsSlice(queue: seq<real>, times: seq<real>)
    requires |queue| <= |times|
    ensures Suffix(queue, times) <==> queue == times[|times| - |queue|..]
    decreases |queue|
  {
    if queue != [] {
      var q, t := queue[..|queue| - 1], times[..|times| - 1];
      SuffixIsSlice(q, t);
      var k := |times| - |queue|;
      assert times[k..] == t[k..] + [times[|times| - 1]] && queue == q + [queue[|queue| - 1]];
    }
  }

  lemma {:induction false} PruneTracks(queue: seq<real>, times: seq<real>, cutoff: real, now: real, window: real)
    requires Tracks(queue, times, cutoff) && cutoff <= now - window
    ensures Tracks(Pruned(queue, now, window), times, now - window)
    ensures var p := Pruned(queue, now, window); p != [] ==> p[0] > now - window
    decreases |queue|
  {
    SuffixIsSlice(queue, times);
    if queue != [] && queue[0] <= now - window {
      SuffixIsSlice(queue[1..], times);
      assert queue[0] == times[|times| - |queue|];
      assert queue[1..] == times[|times| - |queue[1..]|..];
      PruneTracks(queue[1..], times, now - window, now, window);
    }
  }

  lemma {:induction false} WithinNone(times: seq<real>, from: real, to: real)
    requires forall i :: 0 <= i < |times| ==> times[i] <= from
    ensures Within(times, from, to) == []
  {
    if times != [] { WithinNone(times[..|times| - 1], from, to); }
  }

  lemma {:induction false} WithinSplit(times: seq<real>, k: nat, from: real, to: real)
    requires k <= |times|
    requires forall i :: 0 <= i < k ==> times[i] <= from
    requires forall i :: k <= i < |times| ==> from < times[i] <= to
    ensures Within(times, from, to) == times[k..]
  {
    if k == |times| {
      WithinNone(times, from, to);
    } else {
      var front := times[..|times| - 1];
      WithinSplit(front, k, from, to);
      assert front[k..] + [times[|times| - 1]] == times[k..];
    }
  }

  lemma TracksFrom(queue: seq<real>, times: seq<real>, cutoff: real) returns (k: nat)
    requires Tracks(queue, times, cutoff)
    ensures k <= |times| && queue == times[k..] && (k > 0 ==> times[k - 1] <= cutoff)
  {
    SuffixIsSlice(queue, times);
    k := |times| - |queue|;
  }

  /** Pruning finds the place where the history enters the window. */
  lemma PrunedIsSlice(queue: seq<real>, times: seq<real>, cutoff: real, now: real, window: real) returns (k: nat)
    requires Tracks(queue, times, cutoff) && cutoff <= now - window
    ensures k <= |times| && Pruned(queue, now, window) == times[k..]
    ensures (k > 0 ==> times[k - 1] <= now - window) && (k < |times| ==> times[k] > now - window)
  {
    PruneTracks(queue, times, cutoff, now, window);
    k := TracksFrom(Pruned(queue, now, window), times, now - window);
  }

  /** The pruned queue is exactly the part of the whole history inside the window. */
  lemma PruningFilters(queue: seq<real>, times: seq<real>, cutoff: real, now: real, window: real)
    requires Ascending(times) && (times != [] ==> times[|times| - 1] <= now)
    requires Tracks(queue, times, cutoff) && cutoff <= now - window
    ensures Pruned(queue, now, window) == Within(times, now - window, now)
  {
    var k := PrunedIsSlice(queue, times, cutoff, now, window);
    AllInside(times, k, now - window, now);
  }

  lemma AllInside(times: seq<real>, k: nat, from: real, to: real)
    requires Ascending(times) && k <= |times| && (times != [] ==> times[|times| - 1] <= to)
    requires (k > 0 ==> times[k - 1] <= from) && (k < |times| ==> times[k] > from)
    ensures Within(times, from, to) == times[k..]
  {
    forall i | 0 <= i < k ensures times[i] <= from { assert times[i] <= times[k - 1]; }
    forall i | k <= i < |times| ensures from < times[i] <= to { assert times[k] <= times[i] <= times[|times| - 1]; }
    WithinSplit(times, k, from, to);
  }

  // ----- the limit in every window -----

  lemma {:induction false} CutPoint(times: seq<real>, from: real) returns (k: nat)
    requires Ascending(times)
    ensures k <= |times| && (forall i :: 0 <= i < k ==> times[i] <= from) && (forall i :: k <= i < |times| ==> from < times[i])
  {
    if times == [] { k := 0; }
    else if times[|times| - 1] <= from { k := |times|; }
    else {
      k := CutPoint(times[..|times| - 1], from);
    }
  }

  lemma {:induction false} PacedMeansLimited(times: seq<real>, limit: int, window: real, x: real)
    requires 0 < limit && Paced(times, limit, window)
    ensures |Within(times, x - window, x)| <= limit
    decreases |times|
  {
    if times != [] {
      var n := |times|;
      if times[n - 1] <= x {
        PacedAscends(times, limit, window);
        var k := CutPoint(times, x - window);
        WithinSplit(times, k, x - window, x);
        assert n - 1 >= limit ==> times[n - 1 - limit] + window <= times[n - 1];
      } else {
        PacedMeansLimited(times[..n - 1], limit, window, x);
      }
    }
  }

  // ----- one operation on one queue -----

  lemma PruneKeeps(queue: seq<real>, times: seq<real>, limit: int, window: real, was: real, now: real)
    requires QueueOk(queue, times, limit, window, was) && was <= now
    ensures QueueOk(Pruned(queue, now, window), times, limit, window, now)
    ensures Pruned(queue, now, window) == Within(times, now - window, now)
  {
    PacedAscends(times, limit, window);
    PruneTracks(queue, times, was - window, now, window);
    PruningFilters(queue, times, was - window, now, window);
  }

  lemma PushKeeps(queue: seq<real>, times: seq<real>, limit: int, window: real, now: real)
    requires QueueOk(queue, times, limit, window, now) && (0 < limit ==> |queue| < limit)
    ensures QueueOk(queue + [now], times + [now], limit, window, now)
  {
    var more := times + [now];
    assert more[..|times|] == times && (queue + [now])[..|queue|] == queue;
    if 0 < limit <= |times| {
      PacedAscends(times, limit, window);
      assert times[|times| - limit] <= times[|times| - |queue| - 1];
    }
  }

  /** A refund of the newest run takes it out of the history. */
  lemma PopKeeps(queue: seq<real>, times: seq<real>, limit: int, window: real, was: real, now: real)
    requires QueueOk(queue, times, limit, window, was) && was <= now && times != []
    ensures QueueOk(ButLast(queue), ButLast(times), limit, window, now)
  {
    if queue == [] { assert Suffix(ButLast(queue), ButLast(times)); }
  }

  lemma LaterKeeps(queue: seq<real>, times: seq<real>, limit: int, window: real, was: real, now: real)
    requires QueueOk(queue, times, limit, window, was) && was <= now
    ensures QueueOk(queue, times, limit, window, now)
  {}

  lemma ExpiredPrunes(queue: seq<real>, times: seq<real>, limit: int, window: real, was: real, now: real)
    requires Expired(queue, times, limit, window, was) && was <= now
    ensures Pruned(queue, now, window) == [] && QueueOk([], times, limit, window, now)
  {
    AllPruned(queue, now, window);
  }

  lemma {:induction false} AllPruned(queue: seq<real>, now: real, window: real)
    requires forall t :: t in queue ==> t <= now - window
    ensures Pruned(queue, now, window) == []
  {
    if queue != [] {
      assert queue[0] in queue && forall t :: t in queue[1..] ==> t in queue;
      AllPruned(queue[1..], now, window);
    }
  }

  lemma SoundPrunes(queue: seq<real>, times: seq<real>, limit: int, window: real, was: real, now: real)
    requires Sound(queue, times, limit, window, was) && was <= now
    ensures QueueOk(Pruned(queue, now, window), times, limit, window, now)
    ensures Pruned(queue, now, window) == Within(times, now - window, now)
  {
    if QueueOk(queue, times, limit, window, was) {
      PruneKeeps(queue, times, limit, window, was, now);
    } else {
      ExpiredPrunes(queue, times, limit, window, was, now);
      PruneKeeps([], times, limit, window, now, now);
    }
  }

  lemma SoundLater(queue: seq<real>, times: seq<real>, limit: int, window: real, was: real, now: real)
    requires Sound(queue, times, limit, window, was) && was <= now
    ensures Sound(queue, times, limit, window, now)
  {}

  // ----- a refund on one queue -----

  function RemoveAt<T>(xs: seq<T>, k: nat): seq<T>
    requires k < |xs|
  {
    xs[..k] + xs[k + 1..]
  }

  /** Popping the newest stamp forgets the refunded run `k` exactly when no run was
      admitted at a later instant. */
  lemma RefundCovers(times: seq<real>, k: nat)
    requires Ascending(times) && k < |times|
    ensures ButLast(times) == RemoveAt(times, k) <==> times[k] == times[|times| - 1]
  {
    var n := |times|;
    var less, rest := ButLast(times), RemoveAt(times, k);
    assert forall i :: k <= i < n - 1 ==> rest[i] == times[i + 1];
    if less == rest {
      SameUpTo(times, k, n - 1);
    }
    if times[k] == times[n - 1] {
      assert forall i :: k <= i < n ==> times[k] <= times[i] <= times[n - 1];
      assert forall i :: 0 <= i < n - 1 ==> less[i] == rest[i];
    }
  }

  lemma {:induction false} SameUpTo(times: seq<real>, k: nat, j: nat)
    requires k <= j < |times| && forall i :: k <= i < |times| - 1 ==> times[i] == times[i + 1]
    ensures times[k] == times[j]
  {
    if k < j { SameUpTo(times, k, j - 1); }
  }

  /** Popping the newest stamp does no harm: it is the refunded run's, or all are out of
      the window by then. */
  predicate Harmless(times: seq<real>, stamp: real, window: real, at: real) {
    times != [] ==> stamp == times[|times| - 1] || (0.0 <= window && times[|times| - 1] + window <= at)
  }

  lemma RemoveAtFront<T>(xs: seq<T>, k: nat)
    requires k < |xs|
    ensures var n := |xs| - 1;
      RemoveAt(xs, k) == if k == n then xs[..n] else RemoveAt(xs[..n], k) + [xs[n]]
  {}

  lemma PacedSnoc(front: seq<real>, t: real, limit: int, window: real)
    requires Paced(front, limit, window) && (front != [] ==> front[|front| - 1] <= t)
    requires 0 < limit <= |front| ==> front[|front| - limit] + window <= t
    ensures Paced(front + [t], limit, window)
  {
    var times := front + [t];
    assert times[..|times| - 1] == front;
  }

  lemma RemovedAt<T>(xs: seq<T>, k: nat, i: nat)
    requires k < |xs| && i < |xs| - 1
    ensures RemoveAt(xs, k)[i] == if i < k then xs[i] else xs[i + 1]
  {}

  lemma RoomForLast(times: seq<real>, k: nat, limit: int, window: real)
    requires Paced(times, limit, window) && k < |times| - 1
    ensures var n := |times| - 1;
      var front := RemoveAt(times[..n], k);
      && (front != [] ==> front[|front| - 1] <= times[n])
      && (0 < limit <= |front| ==> front[|front| - limit] + window <= times[n])
  {
    var n := |times| - 1;
    PacedAscends(times, limit, window);
    if n > 1 { RemovedAt(times[..n], k, n - 2); }
    if 0 < limit <= n - 1 { RemovedAt(times[..n], k, n - 1 - limit); }
  }

  /** A history with a run less is as well paced. */
  lemma {:induction false} PacedWithout(times: seq<real>, k: nat, limit: int, window: real)
    requires Paced(times, limit, window) && k < |times|
    ensures Paced(RemoveAt(times, k), limit, window)
    decreases |times|
  {
    var n := |times| - 1;
    RemoveAtFront(times, k);
    if k < n {
      PacedWithout(times[..n], k, limit, window);
      RoomForLast(times, k, limit, window);
      PacedSnoc(RemoveAt(times[..n], k), times[n], limit, window);
    }
  }

  lemma ExpiredPop(queue: seq<real>, times: seq<real>, k: nat, limit: int, window: real, now: real)
    requires Expired(queue, times, limit, window, now) && k < |times|
    ensures Expired(ButLast(queue), RemoveAt(times, k), limit, window, now)
  {
    PacedWithout(times, k, limit, window);
    PacedAscends(times, limit, window);
    NoLaterWithout(times, k);
    assert forall t :: t in ButLast(queue) ==> t in queue;
  }

  lemma NoLaterWithout(times: seq<real>, k: nat)
    requires Ascending(times) && k < |times|
    ensures var less := RemoveAt(times, k); less != [] ==> less[|less| - 1] <= times[|times| - 1]
  {
    var less := RemoveAt(times, k);
    if less != [] { RemovedAt(times, k, |less| - 1); }
  }

  lemma SliceBelow(times: seq<real>, k: nat, bound: real)
    requires Ascending(times) && k <= |times| && (times != [] ==> times[|times| - 1] <= bound)
    ensures forall t :: t in times[k..] ==> t <= bound
  {}

  lemma QueueBelow(queue: seq<real>, times: seq<real>, cutoff: real, bound: real)
    requires Ascending(times) && Tracks(queue, times, cutoff) && (times != [] ==> times[|times| - 1] <= bound)
    ensures forall t :: t in queue ==> t <= bound
  {
    var k := TracksFrom(queue, times, cutoff);
    SliceBelow(times, k, bound);
  }

  lemma OutOfWindow(queue: seq<real>, times: seq<real>, limit: int, window: real, was: real, now: real)
    requires QueueOk(queue, times, limit, window, was) && 0.0 <= window
    requires times != [] ==> times[|times| - 1] + window <= now
    ensures Expired(queue, times, limit, window, now)
  {
    PacedAscends(times, limit, window);
    QueueBelow(queue, times, was - window, now - window);
  }

  lemma SoundPop(queue: seq<real>, times: seq<real>, k: nat, limit: int, window: real, was: real, now: real)
    requires Sound(queue, times, limit, window, was) && was <= now && k < |times| && Harmless(times, times[k], window, now)
    ensures Sound(ButLast(queue), RemoveAt(times, k), limit, window, now)
  {
    if !QueueOk(queue, times, limit, window, was) {
      ExpiredPop(queue, times, k, limit, window, now);
    } else if times[k] == times[|times| - 1] {
      PacedAscends(times, limit, window);
      RefundCovers(times, k);
      PopKeeps(queue, times, limit, window, was, now);
    } else {
      OutOfWindow(queue, times, limit, window, was, now);
      ExpiredPop(queue, times, k, limit, window, now);
    }
  }

  // ----- histories and their stamps -----

  lemma OneMore(h: seq<Start>, x: Start, session: string)
    ensures Times(h + [x]) == Times(h) + [x.at]
    ensures Of(h + [x], session) == if x.session == session then Of(h, session) + [x.at] else Of(h, session)
  {
    var more := h + [x];
    assert more[..|more| - 1] == h;
    assert Of(h, session) + [] == Of(h, session);
  }

  lemma {:induction false} TimesAt(h: seq<Start>, k: nat)
    requires k < |h|
    ensures |Times(h)| == |h| && Times(h)[k] == h[k].at
  {
    if |h| > 1 {
      TimesAt(h[..|h| - 1], if k < |h| - 1 then k else 0);
    }
  }

  lemma {:induction false} TimesWithout(h: seq<Start>, k: nat)
    requires k < |h|
    ensures k < |Times(h)| && Times(RemoveAt(h, k)) == RemoveAt(Times(h), k)
  {
    var n := |h| - 1;
    TimesAt(h, k);
    RemoveAtFront(h, k);
    RemoveAtFront(Times(h), k);
    assert Times(h)[..n] == Times(h[..n]) && Times(h)[n] == h[n].at;
    if k < n {
      TimesWithout(h[..n], k);
      OneMore(RemoveAt(h[..n], k), h[n], "");
    }
  }

  lemma OfOneMore(h: seq<Start>, k: nat, session: string)
    requires k < |h|
    ensures var n := |h| - 1;
      var here := if h[n].session == session then [h[n].at] else [];
      && Of(h, session) == Of(h[..n], session) + here
      && Of(RemoveAt(h, k), session) == if k == n then Of(h[..n], session) else Of(RemoveAt(h[..n], k), session) + here
  {
    var n := |h| - 1;
    RemoveAtFront(h, k);
    if k < n {
      var less := RemoveAt(h[..n], k) + [h[n]];
      assert less[..|less| - 1] == RemoveAt(h[..n], k);
    }
  }

  lemma {:induction false} OfOthers(h: seq<Start>, k: nat, session: string)
    requires k < |h| && h[k].session != session
    ensures Of(RemoveAt(h, k), session) == Of(h, session)
  {
    var n := |h| - 1;
    OfOneMore(h, k, session);
    if k < n { OfOthers(h[..n], k, session); }
  }

  /** `less` is `of` without its stamp `t` at `j`. */
  predicate Ranked(of: seq<real>, less: seq<real>, j: nat, t: real) {
    j < |of| && of[j] == t && less == RemoveAt(of, j)
  }

  lemma RankedLast(front: seq<real>, t: real)
    ensures Ranked(front + [t], front, |front|, t)
  {}

  lemma RankedMore(of: seq<real>, less: seq<real>, j: nat, t: real, here: seq<real>)
    requires Ranked(of, less, j, t)
    ensures Ranked(of + here, less + here, j, t)
  {}

  /** Where run `k` stands among its session's runs. */
  lemma {:induction false} OfWithout(h: seq<Start>, k: nat) returns (j: nat)
    requires k < |h|
    ensures Ranked(Of(h, h[k].session), Of(RemoveAt(h, k), h[k].session), j, h[k].at)
  {
    var n, session := |h| - 1, h[k].session;
    OfOneMore(h, k, session);
    if k == n {
      j := |Of(h[..n], session)|;
      RankedLast(Of(h[..n], session), h[k].at);
    } else {
      j := OfWithout(h[..n], k);
      RankedMore(Of(h[..n], session), Of(RemoveAt(h[..n], k), session), j, h[k].at,
                 if h[n].session == session then [h[n].at] else []);
    }
  }

  // ----- one operation on the state -----

  lemma QueueAfterOpen(s: State, session: string, now: real, window: real, other: string)
    ensures Queue(Opened(s, session, now, window), other)
         == if other == session then Pruned(Queue(s, session), now, window) else Queue(s, other)
  {}

  lemma QueueAfterReserve(limits: Limits, s: State, session: string, at: real, other: string)
    ensures var o := Opened(s, session, at, limits.window);
      Queue(Reserve(limits, s, session, at), other)
        == if other == session && Exhausted(limits, o, session).None? then Queue(o, session) + [at] else Queue(o, other)
  {}

  lemma AllAfterReserve(limits: Limits, s: State, session: string, at: real)
    ensures var pruned := Pruned(s.all, at, limits.window);
      var refused := Exhausted(limits, Opened(s, session, at, limits.window), session).Some?;
      && Reserve(limits, s, session, at).all == (if refused then pruned else pruned + [at])
      && (!refused && 0 < limits.perDeployment ==> |pruned| < limits.perDeployment)
  {}

  lemma StartKeepsAll(limits: Limits, s: State, h: seq<Start>, was: real, session: string, at: real)
    requires AllSound(limits, s, h, was) && was <= at
    ensures var v := Started(limits, s, h, session, at); AllSound(limits, v.s, v.h, at)
  {
    SoundPrunes(s.all, Times(h), limits.perDeployment, limits.window, was, at);
    OneMore(h, Start(session, at), session);
    AllAfterReserve(limits, s, session, at);
    if Exhausted(limits, Opened(s, session, at, limits.window), session).None? {
      PushKeeps(Pruned(s.all, at, limits.window), Times(h), limits.perDeployment, limits.window, at);
    }
  }

  lemma StartKeepsSession(limits: Limits, s: State, h: seq<Start>, was: real, session: string, at: real, other: string)
    requires SessionSound(limits, s, h, was, other) && was <= at
    ensures var v := Started(limits, s, h, session, at); SessionSound(limits, v.s, v.h, at, other)
  {
    var o := Opened(s, session, at, limits.window);
    QueueAfterOpen(s, session, at, limits.window, other);
    QueueAfterReserve(limits, s, session, at, other);
    OneMore(h, Start(session, at), other);
    SoundLater(Queue(s, other), Of(h, other), limits.perSession, limits.window, was, at);
    if other == session {
      SoundPrunes(Queue(s, session), Of(h, session), limits.perSession, limits.window, was, at);
      if Exhausted(limits, o, session).None? {
        PushKeeps(Queue(o, session), Of(h, session), limits.perSession, limits.window, at);
      }
    }
  }

  lemma RefundKeepsAll(limits: Limits, s: State, h: seq<Start>, was: real, k: nat, at: real)
    requires AllSound(limits, s, h, was) && was <= at && k < |h| && Harmless(Times(h), h[k].at, limits.window, at)
    ensures AllSound(limits, Refund(s, h[k].session), RemoveAt(h, k), at)
  {
    TimesAt(h, k);
    TimesWithout(h, k);
    SoundPop(s.all, Times(h), k, limits.perDeployment, limits.window, was, at);
  }

  /** Only a session's own refunds touch its queue. */
  lemma RefundKeepsSession(limits: Limits, s: State, h: seq<Start>, was: real, k: nat, at: real, other: string)
    requires SessionSound(limits, s, h, was, other) && was <= at && k < |h|
    requires h[k].session == other ==> Harmless(Of(h, other), h[k].at, limits.window, at)
    ensures SessionSound(limits, Refund(s, h[k].session), RemoveAt(h, k), at, other)
  {
    if other == h[k].session {
      var j := OfWithout(h, k);
      SoundPop(Queue(s, other), Of(h, other), j, limits.perSession, limits.window, was, at);
      assert Queue(Refund(s, other), other) == ButLast(Queue(s, other));
    } else {
      OfOthers(h, k, other);
      assert Queue(Refund(s, h[k].session), other) == Queue(s, other);
      SoundLater(Queue(s, other), Of(h, other), limits.perSession, limits.window, was, at);
    }
  }

  // ----- whole runs -----

  /** A refund says which of the admitted runs it is for. */
  datatype Op = Start_(session: string, at: real) | Return(run: nat, at: real)

  datatype World = World(s: State, h: seq<Start>, now: real)

  predicate Possible(w: World, op: Op) {
    w.now <= op.at && (op.Return? ==> op.run < |w.h|)
  }

  function Started(limits: Limits, s: State, h: seq<Start>, session: string, at: real): World {
    var refused := Exhausted(limits, Opened(s, session, at, limits.window), session).Some?;
    World(Reserve(limits, s, session, at), if refused then h else h + [Start(session, at)], at)
  }

  /** The history loses the refunded run, the queues their newest stamps. */
  function Next(limits: Limits, w: World, op: Op): World
    requires Possible(w, op)
  {
    match op
    case Start_(session, at) => Started(limits, w.s, w.h, session, at)
    case Return(run, at) => World(Refund(w.s, w.h[run].session), RemoveAt(w.h, run), at)
  }

  function Beginning(from: real): World { World(State([], map[]), [], from) }

  predicate Path(limits: Limits, ws: seq<World>, ops: seq<Op>) {
    && |ws| == |ops| + 1
    && forall i {:trigger ops[i]} :: 0 <= i < |ops| ==> Possible(ws[i], ops[i]) && ws[i + 1] == Next(limits, ws[i], ops[i])
  }

  /** The worlds a run of operations goes through. */
  predicate IsRun(limits: Limits, ws: seq<World>, ops: seq<Op>) {
    Path(limits, ws, ops) && ws[0] == Beginning(ws[0].now)
  }

  /** The deployment's queue takes no harm from any refund. */
  predicate AllHarmless(limits: Limits, ws: seq<World>, ops: seq<Op>)
    requires Path(limits, ws, ops)
  {
    forall i {:trigger ops[i]} :: 0 <= i < |ops| && ops[i].Return? ==>
      Harmless(Times(ws[i].h), ws[i].h[ops[i].run].at, limits.window, ops[i].at)
  }

  /** A session's queue takes no harm from the refunds of its own runs. */
  predicate OwnHarmless(limits: Limits, ws: seq<World>, ops: seq<Op>, session: string)
    requires Path(limits, ws, ops)
  {
    forall i {:trigger ops[i]} :: 0 <= i < |ops| && ops[i].Return? && ws[i].h[ops[i].run].session == session ==>
      Harmless(Of(ws[i].h, session), ws[i].h[ops[i].run].at, limits.window, ops[i].at)
  }

  lemma StepKeepsAll(limits: Limits, w: World, op: Op)
    requires AllSound(limits, w.s, w.h, w.now) && Possible(w, op)
    requires op.Return? ==> Harmless(Times(w.h), w.h[op.run].at, limits.window, op.at)
    ensures var v := Next(limits, w, op); AllSound(limits, v.s, v.h, v.now)
  {
    match op
    case Start_(session, at) => StartKeepsAll(limits, w.s, w.h, w.now, session, at);
    case Return(run, at) => RefundKeepsAll(limits, w.s, w.h, w.now, run, at);
  }

  lemma StepKeepsSession(limits: Limits, w: World, op: Op, session: string)
    requires SessionSound(limits, w.s, w.h, w.now, session) && Possible(w, op)
    requires op.Return? && w.h[op.run].session == session ==>
      Harmless(Of(w.h, session), w.h[op.run].at, limits.window, op.at)
    ensures var v := Next(limits, w, op); SessionSound(limits, v.s, v.h, v.now, session)
  {
    match op
    case Start_(starter, at) => StartKeepsSession(limits, w.s, w.h, w.now, starter, at, session);
    case Return(run, at) => RefundKeepsSession(limits, w.s, w.h, w.now, run, at, session);
  }

  lemma {:induction false} PathOfAll(limits: Limits, ws: seq<World>, ops: seq<Op>, i: nat)
    requires Path(limits, ws, ops) && AllHarmless(limits, ws, ops) && i < |ws|
    requires AllSound(limits, ws[0].s, ws[0].h, ws[0].now)
    ensures AllSound(limits, ws[i].s, ws[i].h, ws[i].now)
  {
    if i > 0 {
      var w, op := ws[i - 1], ops[i - 1];
      PathOfAll(limits, ws, ops, i - 1);
      assert Possible(w, op) && ws[i - 1 + 1] == Next(limits, w, op);
      StepKeepsAll(limits, w, op);
    }
  }

  lemma OwnRefund(limits: Limits, ws: seq<World>, ops: seq<Op>, i: nat, session: string)
    requires Path(limits, ws, ops) && OwnHarmless(limits, ws, ops, session) && i < |ops|
    ensures var w, op := ws[i], ops[i];
      && Possible(w, op) && ws[i + 1] == Next(limits, w, op)
      && (op.Return? && w.h[op.run].session == session ==> Harmless(Of(w.h, session), w.h[op.run].at, limits.window, op.at))
  {}

  lemma {:induction false} PathOfSession(limits: Limits, ws: seq<World>, ops: seq<Op>, i: nat, session: string)
    requires Path(limits, ws, ops) && OwnHarmless(limits, ws, ops, session) && i < |ws|
    requires SessionSound(limits, ws[0].s, ws[0].h, ws[0].now, session)
    ensures SessionSound(limits, ws[i].s, ws[i].h, ws[i].now, session)
  {
    if i > 0 {
      PathOfSession(limits, ws, ops, i - 1, session);
      OwnRefund(limits, ws, ops, i - 1, session);
      StepKeepsSession(limits, ws[i - 1], ops[i - 1], session);
    }
  }

  lemma RunOfAll(limits: Limits, ws: seq<World>, ops: seq<Op>, i: nat)
    requires IsRun(limits, ws, ops) && AllHarmless(limits, ws, ops) && i < |ws|
    ensures AllSound(limits, ws[i].s, ws[i].h, ws[i].now)
  {
    PathOfAll(limits, ws, ops, i);
  }

  lemma RunOfSession(limits: Limits, ws: seq<World>, ops: seq<Op>, i: nat, session: string)
    requires IsRun(limits, ws, ops) && OwnHarmless(limits, ws, ops, session) && i < |ws|
    ensures SessionSound(limits, ws[i].s, ws[i].h, ws[i].now, session)
  {
    assert Of([], session) == [];
    PathOfSession(limits, ws, ops, i, session);
  }

  lemma SoundLimited(queue: seq<real>, times: seq<real>, limit: int, window: real, now: real, x: real)
    requires Sound(queue, times, limit, window, now) && 0 < limit
    ensures |Within(times, x - window, x)| <= limit
  {
    PacedMeansLimited(times, limit, window, x);
  }

  /** In every world of every run, in every window of the configured length, wherever it
      lies: no more runs of a session than its limit, unless one of its own later runs
      overtook a refund. */
  lemma SessionLimitHolds(limits: Limits, ws: seq<World>, ops: seq<Op>, i: nat, x: real, session: string)
    requires IsRun(limits, ws, ops) && OwnHarmless(limits, ws, ops, session) && i < |ws| && 0 < limits.perSession
    ensures |Within(Of(ws[i].h, session), x - limits.window, x)| <= limits.perSession
  {
    RunOfSession(limits, ws, ops, i, session);
    var w := ws[i];
    SoundLimited(Queue(w.s, session), Of(w.h, session), limits.perSession, limits.window, w.now, x);
  }

  /** The same for the whole deployment, unless any later run overtook a refund. */
  lemma DeploymentLimitHolds(limits: Limits, ws: seq<World>, ops: seq<Op>, i: nat, x: real)
    requires IsRun(limits, ws, ops) && AllHarmless(limits, ws, ops) && i < |ws| && 0 < limits.perDeployment
    ensures |Within(Times(ws[i].h), x - limits.window, x)| <= limits.perDeployment
  {
    RunOfAll(limits, ws, ops, i);
    var w := ws[i];
    SoundLimited(w.s.all, Times(w.h), limits.perDeployment, limits.window, w.now, x);
  }

  /** In every run, the pruned queues are the history in the window that ends now. */
  lemma SessionQueueIsRecent(limits: Limits, ws: seq<World>, ops: seq<Op>, i: nat, session: string, at: real)
    requires IsRun(limits, ws, ops) && OwnHarmless(limits, ws, ops, session) && i < |ws| && ws[i].now <= at
    ensures Pruned(Queue(ws[i].s, session), at, limits.window) == Within(Of(ws[i].h, session), at - limits.window, at)
  {
    RunOfSession(limits, ws, ops, i, session);
    var w := ws[i];
    SoundPrunes(Queue(w.s, session), Of(w.h, session), limits.perSession, limits.window, w.now, at);
  }

  lemma DeploymentQueueIsRecent(limits: Limits, ws: seq<World>, ops: seq<Op>, i: nat, at: real)
    requires IsRun(limits, ws, ops) && AllHarmless(limits, ws, ops) && i < |ws| && ws[i].now <= at
    ensures Pruned(ws[i].s.all, at, limits.window) == Within(Times(ws[i].h), at - limits.window, at)
  {
    RunOfAll(limits, ws, ops, i);
    var w := ws[i];
    SoundPrunes(w.s.all, Times(w.h), limits.perDeployment, limits.window, w.now, at);
  }

  function Refused(limits: Limits, w: World, session: string, at: real): Option<Refusal> {
    Blocked(limits, Opened(w.s, session, at, limits.window), session, at)
  }

  /** In every run, a start is refused for its session exactly when a window ending now is
      full of the session's runs. */
  lemma SessionRefusedWhenFull(limits: Limits, ws: seq<World>, ops: seq<Op>, i: nat, session: string, at: real)
    requires IsRun(limits, ws, ops) && OwnHarmless(limits, ws, ops, session) && i < |ws| && ws[i].now <= at
    ensures var r := Refused(limits, ws[i], session, at);
      (r.Some? && r.value.scope.Session? <==>
        0 < limits.perSession == |Within(Of(ws[i].h, session), at - limits.window, at)|)
  {
    if 0 < limits.perSession { SessionLimitHolds(limits, ws, ops, i, at, session); }
    SessionQueueIsRecent(limits, ws, ops, i, session, at);
    QueueAfterOpen(ws[i].s, session, at, limits.window, session);
  }

  /** A start its session allows is refused for the deployment exactly when a window ending
      now is full. */
  lemma DeploymentRefusedWhenFull(limits: Limits, ws: seq<World>, ops: seq<Op>, i: nat, session: string, at: real)
    requires IsRun(limits, ws, ops) && AllHarmless(limits, ws, ops) && i < |ws| && ws[i].now <= at
    ensures var r := Refused(limits, ws[i], session, at);
      !(r.Some? && r.value.scope.Session?) ==>
        (r.Some? <==> 0 < limits.perDeployment == |Within(Times(ws[i].h), at - limits.window, at)|)
  {
    if 0 < limits.perDeployment { DeploymentLimitHolds(limits, ws, ops, i, at); }
    DeploymentQueueIsRecent(limits, ws, ops, i, at);
  }

  // ----- the retry time -----

  /** The seconds quoted to a refused caller, when the queue stays as it is: from then
      on a slot of that scope is free, and a second earlier none is yet. */
  lemma RetryFreesASlot(stamps: seq<real>, limit: int, window: real, now: real, at: real)
    requires stamps != [] && stamps[0] > now - window && |stamps| == limit
    ensures var wait := RetryAfter(stamps, now, window);
      && wait >= 1
      && (at >= now + wait as real ==> |Pruned(stamps, at, window)| < limit)
      && (now <= at < now + wait as real - 1.0 ==> |Pruned(stamps, at, window)| == limit)
  {
    var d := stamps[0] + window - now;
    assert d > 0.0 && d.Floor as real <= d < (d.Floor + 1) as real;
    PrunedShorter(stamps[1..], at, window);
  }

  lemma {:induction false} PrunedShorter(stamps: seq<real>, now: real, window: real)
    ensures |Pruned(stamps, now, window)| <= |stamps|
  {
    if stamps != [] { PrunedShorter(stamps[1..], now, window); }
  }

  lemma {:induction false} PrunedHead(queue: seq<real>, now: real, window: real)
    ensures var p := Pruned(queue, now, window); p != [] ==> p[0] > now - window
  {
    if queue != [] { PrunedHead(queue[1..], now, window); }
  }

  /** In every run, the seconds quoted with a session's refusal are true of its queue. */
  lemma SessionRefusalsQuoteTheWait(limits: Limits, ws: seq<World>, ops: seq<Op>, i: nat, session: string, at: real, later: real)
    requires IsRun(limits, ws, ops) && OwnHarmless(limits, ws, ops, session) && i < |ws| && ws[i].now <= at <= later
    requires var r := Refused(limits, ws[i], session, at); r.Some? && r.value.scope.Session?
    ensures var r := Refused(limits, ws[i], session, at).value;
      var queue := Queue(Opened(ws[i].s, session, at, limits.window), session);
      && (later >= at + r.retryAfter as real ==> |Pruned(queue, later, limits.window)| < r.limit)
      && (later < at + r.retryAfter as real - 1.0 ==> |Pruned(queue, later, limits.window)| == r.limit)
  {
    SessionRefusedWhenFull(limits, ws, ops, i, session, at);
    SessionQueueIsRecent(limits, ws, ops, i, session, at);
    QueueAfterOpen(ws[i].s, session, at, limits.window, session);
    PrunedHead(Queue(ws[i].s, session), at, limits.window);
    RetryFreesASlot(Pruned(Queue(ws[i].s, session), at, limits.window), limits.perSession, limits.window, at, later);
  }

  /** The same of the deployment's. */
  lemma DeploymentRefusalsQuoteTheWait(limits: Limits, ws: seq<World>, ops: seq<Op>, i: nat, session: string, at: real, later: real)
    requires IsRun(limits, ws, ops) && AllHarmless(limits, ws, ops) && i < |ws| && ws[i].now <= at <= later
    requires var r := Refused(limits, ws[i], session, at); r.Some? && r.value.scope.Deployment?
    ensures var r := Refused(limits, ws[i], session, at).value;
      var queue := Opened(ws[i].s, session, at, limits.window).all;
      && (later >= at + r.retryAfter as real ==> |Pruned(queue, later, limits.window)| < r.limit)
      && (later < at + r.retryAfter as real - 1.0 ==> |Pruned(queue, later, limits.window)| == r.limit)
  {
    DeploymentRefusedWhenFull(limits, ws, ops, i, session, at);
    DeploymentQueueIsRecent(limits, ws, ops, i, at);
    PrunedHead(ws[i].s.all, at, limits.window);
    RetryFreesASlot(Pruned(ws[i].s.all, at, limits.window), limits.perDeployment, limits.window, at, later);
  }
}
