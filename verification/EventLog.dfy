/** The numbering of a run's step events, and their delivery over streams that break off
    and resume. */
module EventLog {
  import opened Common

  datatype Kind = Plan | ToolCall | ToolResult | Hypothesis | Impact | ApprovalRequired | Verification | Degraded | Completed | Error

  datatype Event = Event(number: nat, kind: Kind)

  type Log = seq<Event>

  predicate Terminal(e: Event) { e.kind.Completed? || e.kind.Error? }

  predicate Increasing(log: Log) {
    (forall i :: 0 <= i < |log| ==> log[i].number >= 1) && forall i, j :: 0 <= i < j < |log| ==> log[i].number < log[j].number
  }

  // ----- numbering: the worker's side -----

  /** `steps` is the run document's step count, `next` the investigation's own counter. */
  datatype Run = Run(log: Log, steps: nat, next: nat, phase: Phase)

  datatype Phase = Queued | Running | Concluded | Failed

  datatype Op =
    | Start
    | Emit(kind: Kind)
    | Conclude(kind: Kind)
    | Crash
    | VerifyDone
    | VerifyFailed

  predicate Possible(r: Run, op: Op) {
    match op
    case Start => r.phase.Queued?
    case Emit(_) => r.phase.Running?
    case Conclude(_) => r.phase.Running?
    case Crash => r.phase.Queued? || r.phase.Running?
    case VerifyDone => r.phase.Concluded?
    case VerifyFailed => r.phase.Concluded?
  }

  function Step(r: Run, op: Op): Run
    requires Possible(r, op)
  {
    match op
    case Start => Run(r.log + [Event(1, Plan)], r.steps, 2, Running)
    case Emit(k) => r.(log := r.log + [Event(r.next, k)], next := r.next + 1)
    case Conclude(k) => Run(r.log + [Event(r.next, k)], r.next + 1, r.next + 1, Concluded)
    case Crash => r.(log := r.log + [Event(r.steps + 1, Error)], phase := Failed)
    case VerifyDone => r.(log := r.log + [Event(r.steps + 1, Verification), Event(r.steps + 2, Completed)], steps := r.steps + 2)
    case VerifyFailed => r.(log := r.log + [Event(r.steps + 1, Degraded)])
  }

  const NEW_RUN := Run([], 0, 1, Queued)

  predicate Numbered(log: Log, last: nat) { Increasing(log) && forall i :: 0 <= i < |log| ==> log[i].number <= last }

  predicate RunOk(r: Run) {
    match r.phase
    case Queued => r.log == [] && r.steps == 0
    case Running => r.log != [] && r.steps == 0 && r.next >= 2 && r.log[0].number == 1 && Numbered(r.log, r.next - 1)
    case Concluded => Numbered(r.log, r.steps)
    case Failed => true
  }

  lemma AppendNumbered(log: Log, last: nat, e: Event)
    requires Numbered(log, last) && e.number > last
    ensures Numbered(log + [e], e.number)
  {}

  lemma PairNumbered(log: Log, last: nat, a: Event, b: Event)
    requires Numbered(log, last) && a.number == last + 1 && b.number == last + 2
    ensures Numbered(log + [a, b], last + 2)
  {
    AppendNumbered(log, last, a);
    AppendNumbered(log + [a], last + 1, b);
    assert log + [a, b] == log + [a] + [b];
  }

  lemma StartKeeps(r: Run)
    requires RunOk(r) && r.phase.Queued?
    ensures RunOk(Step(r, Start))
  {
    assert r.log + [Event(1, Plan)] == [Event(1, Plan)];
  }

  lemma EmitKeeps(r: Run, k: Kind)
    requires RunOk(r) && r.phase.Running?
    ensures RunOk(Step(r, Emit(k)))
  {
    AppendNumbered(r.log, r.next - 1, Event(r.next, k));
  }

  lemma ConcludeKeeps(r: Run, k: Kind)
    requires RunOk(r) && r.phase.Running?
    ensures RunOk(Step(r, Conclude(k)))
  {
    AppendNumbered(r.log, r.next - 1, Event(r.next, k));
  }

  lemma VerifyKeeps(r: Run)
    requires RunOk(r) && r.phase.Concluded?
    ensures RunOk(Step(r, VerifyDone))
  {
    PairNumbered(r.log, r.steps, Event(r.steps + 1, Verification), Event(r.steps + 2, Completed));
  }

  /** An investigation and successful verifications after it keep the numbers going up. */
  lemma StepKeeps(r: Run, op: Op)
    requires RunOk(r) && Possible(r, op) && !op.Crash? && !op.VerifyFailed?
    ensures RunOk(Step(r, op)) && Increasing(Step(r, op).log)
  {
    match op
    case Start => StartKeeps(r);
    case Emit(k) => EmitKeeps(r, k);
    case Conclude(k) => ConcludeKeeps(r, k);
    case VerifyDone => VerifyKeeps(r);
  }

  ghost predicate IsRun(runs: seq<Run>, ops: seq<Op>) {
    && |runs| == |ops| + 1 && runs[0] == NEW_RUN
    && forall i {:trigger ops[i]} :: 0 <= i < |ops| ==> Possible(runs[i], ops[i]) && runs[i + 1] == Step(runs[i], ops[i])
  }

  /** Over every run without a crash or a failed verification: numbers start at one and
      go up, and the log only grows. */
  lemma {:induction false} NumbersGoUp(runs: seq<Run>, ops: seq<Op>, i: nat)
    requires IsRun(runs, ops) && i < |runs|
    requires forall j :: 0 <= j < |ops| ==> !ops[j].Crash? && !ops[j].VerifyFailed?
    ensures RunOk(runs[i]) && Increasing(runs[i].log)
  {
    if i > 0 {
      NumbersGoUp(runs, ops, i - 1);
      assert runs[i - 1 + 1] == Step(runs[i - 1], ops[i - 1]);
      StepKeeps(runs[i - 1], ops[i - 1]);
    }
  }

  /** The number given to a crash's error event breaks the order exactly when any event
      was emitted before: the step count is still zero then. */
  lemma CrashNumberIsStale(r: Run)
    requires RunOk(r) && Possible(r, Crash)
    ensures Step(r, Crash).log == r.log + [Event(1, Error)]
    ensures Increasing(Step(r, Crash).log) <==> r.log == []
  {
    var log := Step(r, Crash).log;
    if r.log != [] {
      assert log[0] == r.log[0] && log[|r.log|].number == 1;
    }
  }

  /** A failed verification leaves the step count alone, so the next one reuses its number. */
  lemma FailedVerificationNumberIsReused(r: Run)
    requires RunOk(r) && r.phase.Concluded?
    ensures var once := Step(r, VerifyFailed);
      Increasing(once.log) && !Increasing(Step(once, VerifyDone).log) && !Increasing(Step(once, VerifyFailed).log)
  {
    var n := |r.log|;
    AppendNumbered(r.log, r.steps, Event(r.steps + 1, Degraded));
    var once := Step(r, VerifyFailed);
    assert once.log[n].number == r.steps + 1;
    assert Step(once, VerifyDone).log[n] == once.log[n] && Step(once, VerifyDone).log[n + 1].number == r.steps + 1;
    assert Step(once, VerifyFailed).log[n] == once.log[n] && Step(once, VerifyFailed).log[n + 1].number == r.steps + 1;
  }

  /** Every crash met an empty log, and a failed verification comes last if at all. */
  predicate InOrder(runs: seq<Run>, ops: seq<Op>, i: nat)
    requires i <= |ops| < |runs|
  {
    forall j {:trigger ops[j]} :: 0 <= j < i ==>
      (ops[j].Crash? ==> runs[j].log == []) && (ops[j].VerifyFailed? ==> j == i - 1)
  }

  lemma OrderOfPrefix(log: Log, more: Log)
    requires Increasing(log + more)
    ensures Increasing(log)
  {
    forall i | 0 <= i < |log| ensures log[i].number >= 1 { assert (log + more)[i] == log[i]; }
    forall i, j | 0 <= i < j < |log| ensures log[i].number < log[j].number {
      assert (log + more)[i] == log[i] && (log + more)[j] == log[j];
    }
  }

  lemma StepGrows(r: Run, op: Op)
    requires Possible(r, op) && Increasing(Step(r, op).log)
    ensures Increasing(r.log)
  {
    var more := Step(r, op).log[|r.log|..];
    assert Step(r, op).log == r.log + more;
    OrderOfPrefix(r.log, more);
  }

  /** One operation after a run that is in order. */
  lemma StepExact(r: Run, op: Op)
    requires RunOk(r) && Possible(r, op)
    ensures Increasing(Step(r, op).log) <==> (op.Crash? ==> r.log == [])
    ensures !op.VerifyFailed? && (op.Crash? ==> r.log == []) ==> RunOk(Step(r, op))
  {
    if op.Crash? {
      CrashNumberIsStale(r);
    } else if op.VerifyFailed? {
      FailedVerificationNumberIsReused(r);
    } else {
      StepKeeps(r, op);
    }
  }

  lemma {:induction false} OrderAt(runs: seq<Run>, ops: seq<Op>, i: nat)
    requires IsRun(runs, ops) && i <= |ops|
    ensures Increasing(runs[i].log) <==> InOrder(runs, ops, i)
    ensures InOrder(runs, ops, i) && (i > 0 ==> !ops[i - 1].VerifyFailed?) ==> RunOk(runs[i])
  {
    if i > 0 {
      OrderAt(runs, ops, i - 1);
      var r, op := runs[i - 1], ops[i - 1];
      assert Possible(r, op) && runs[i - 1 + 1] == Step(r, op);
      if !InOrder(runs, ops, i - 1) {
        if Increasing(runs[i].log) { StepGrows(r, op); }
        assert !InOrder(runs, ops, i);
      } else if i > 1 && ops[i - 2].VerifyFailed? {
        OrderAt(runs, ops, i - 2);
        assert runs[i - 2 + 1] == Step(runs[i - 2], VerifyFailed);
        FailedVerificationNumberIsReused(runs[i - 2]);
      } else {
        StepExact(r, op);
      }
    }
  }

  /** Over every run: the numbers go up exactly when every crash met an empty log and a
      failed verification, if any, is the last operation. */
  lemma OrderExactly(runs: seq<Run>, ops: seq<Op>)
    requires IsRun(runs, ops)
    ensures Increasing(runs[|ops|].log) <==> InOrder(runs, ops, |ops|)
  {
    OrderAt(runs, ops, |ops|);
  }

  // ----- delivery: the stream's side -----

  /** The events behind a number, in log order. */
  function Since(log: Log, number: int): Log {
    if log == [] then []
    else (if log[0].number > number then [log[0]] else []) + Since(log[1..], number)
  }

  /** Up to and including the first terminal event. */
  function Cut(events: Log): Log {
    if events == [] then [] else if Terminal(events[0]) then [events[0]] else [events[0]] + Cut(events[1..])
  }

  predicate Ends(events: Log) { exists e :: e in events && Terminal(e) }

  function Newest(number: int, events: Log): int
    decreases |events|
  {
    if events == [] then number
    else Newest(if events[0].number > number then events[0].number else number, events[1..])
  }

  /** What a stream sends over successive polls, each of which sees the log as it is then. */
  function Sent(polls: seq<Log>, number: int): Log
    decreases |polls|
  {
    if polls == [] then []
    else
      var d := Cut(Since(polls[0], number));
      if Ends(d) then d else d + Sent(polls[1..], Newest(number, d))
  }

  /** One connection: its polls, and how many of its events reached the client before it broke. */
  datatype Session = Session(polls: seq<Log>, got: nat)

  function Take(events: Log, n: nat): Log { if n <= |events| then events[..n] else events }

  /** What the client has received after a series of connections, each resuming behind
      the last event it got. */
  function Received(sessions: seq<Session>, number: int): Log
    decreases |sessions|
  {
    if sessions == [] then []
    else
      var got := Take(Sent(sessions[0].polls, number), sessions[0].got);
      got + Received(sessions[1..], Newest(number, got))
  }

  // ----- positions -----

  /** Everything before `k` is at most `number`, everything from `k` on is above it. */
  predicate At(log: Log, number: int, k: nat) {
    && k <= |log| && (forall i :: 0 <= i < k ==> log[i].number <= number)
    && forall i :: k <= i < |log| ==> log[i].number > number
  }

  lemma {:induction false} SinceIsSuffix(log: Log, number: int, k: nat)
    requires At(log, number, k)
    ensures Since(log, number) == log[k..]
  {
    if log != [] {
      if k == 0 {
        SinceIsSuffix(log[1..], number, 0);
        assert log[0..] == [log[0]] + log[1..];
      } else {
        SinceIsSuffix(log[1..], number, k - 1);
        assert log[1..][k - 1..] == log[k..];
      }
    }
  }

  lemma EndsTail(e: Event, rest: Log)
    ensures Ends([e] + rest) <==> Terminal(e) || Ends(rest)
  {
    if Terminal(e) { assert e in [e] + rest; }
    if Ends(rest) { var x :| x in rest && Terminal(x); assert x in [e] + rest; }
  }

  lemma {:induction false} CutIsPrefix(events: Log) returns (n: nat)
    ensures n <= |events| && Cut(events) == events[..n]
    ensures forall i :: 0 <= i < n - 1 ==> !Terminal(events[i])
    ensures Ends(Cut(events)) <==> n > 0 && Terminal(events[n - 1])
    ensures n < |events| ==> Ends(Cut(events))
  {
    if events == [] { n := 0; }
    else if Terminal(events[0]) { n := 1; EndsTail(events[0], []); }
    else {
      var m := CutIsPrefix(events[1..]);
      n := m + 1;
      assert events[..n] == [events[0]] + events[1..][..m];
      EndsTail(events[0], Cut(events[1..]));
    }
  }

  lemma {:induction false} NewestOfSlice(log: Log, number: int, k: nat, m: nat)
    requires Increasing(log) && At(log, number, k) && k <= m <= |log|
    ensures At(log, Newest(number, log[k..m]), m)
    decreases m - k
  {
    if k < m {
      assert log[k..m][0] == log[k] && log[k..m][1..] == log[k + 1..m];
      NewestOfSlice(log, log[k].number, k + 1, m);
    }
  }

  lemma SinceOfPrefix(log: Log, seen: Log, number: int, k: nat)
    requires At(log, number, k) && seen <= log
    ensures Since(seen, number) == if |seen| <= k then [] else log[k..|seen|]
  {
    assert seen == log[..|seen|];
    if |seen| <= k {
      SinceIsSuffix(seen, number, |seen|);
    } else {
      SinceIsSuffix(seen, number, k);
      assert seen[k..] == log[k..|seen|];
    }
  }

  /** One poll of a log in progress. */
  lemma PollDelivers(log: Log, seen: Log, number: int, k: nat) returns (m: nat)
    requires At(log, number, k) && seen <= log
    ensures k <= m <= |log| && Cut(Since(seen, number)) == log[k..m]
    ensures forall i :: k <= i < m - 1 ==> !Terminal(log[i])
  {
    SinceOfPrefix(log, seen, number, k);
    if |seen| <= k {
      m := k;
      assert log[k..k] == [];
    } else {
      var tail := log[k..|seen|];
      var c := CutIsPrefix(tail);
      m := k + c;
      assert tail[..c] == log[k..m];
      forall i | k <= i < m - 1 ensures !Terminal(log[i]) { assert tail[i - k] == log[i]; }
    }
  }

  lemma SliceEnds(log: Log, k: nat, c: nat)
    requires k <= c <= |log| && !Ends(log[k..c])
    ensures forall i :: k <= i < c ==> !Terminal(log[i])
  {
    forall i | k <= i < c ensures !Terminal(log[i]) { assert log[k..c][i - k] == log[i]; }
  }

  /** Whatever its polls see, a stream sends a run of consecutive events from its resume
      point on, and stops at the first terminal one. */
  lemma {:induction false} StreamIsASlice(log: Log, polls: seq<Log>, number: int, k: nat) returns (m: nat)
    requires Increasing(log) && At(log, number, k) && forall p :: p in polls ==> p <= log
    ensures k <= m <= |log| && Sent(polls, number) == log[k..m]
    ensures forall i :: k <= i < m - 1 ==> !Terminal(log[i])
    decreases |polls|
  {
    if polls == [] {
      m := k;
    } else {
      assert polls[0] in polls && forall p :: p in polls[1..] ==> p in polls;
      var c := PollDelivers(log, polls[0], number, k);
      var d := log[k..c];
      if Ends(d) {
        m := c;
      } else {
        SliceEnds(log, k, c);
        NewestOfSlice(log, number, k, c);
        m := StreamIsASlice(log, polls[1..], Newest(number, d), c);
        SliceJoins(log, k, c, m);
      }
    }
  }

  /** Every poll saw a state of this log. */
  predicate Saw(log: Log, sessions: seq<Session>) {
    sessions != [] ==> (forall p :: p in sessions[0].polls ==> p <= log) && Saw(log, sessions[1..])
  }

  /** What one broken connection delivers, and where the next resumes. */
  lemma SessionIsASlice(log: Log, s: Session, number: int, k: nat) returns (m: nat)
    requires Increasing(log) && At(log, number, k) && forall p :: p in s.polls ==> p <= log
    ensures k <= m <= |log| && Take(Sent(s.polls, number), s.got) == log[k..m] && At(log, Newest(number, log[k..m]), m)
  {
    var c := StreamIsASlice(log, s.polls, number, k);
    m := if s.got <= c - k then k + s.got else c;
    assert Take(log[k..c], s.got) == log[k..m];
    NewestOfSlice(log, number, k, m);
  }

  lemma SliceJoins(log: Log, k: nat, c: nat, m: nat)
    requires k <= c <= m <= |log|
    ensures log[k..c] + log[c..m] == log[k..m]
  {}

  lemma {:induction false} ReceivedIsASlice(log: Log, sessions: seq<Session>, number: int, k: nat) returns (m: nat)
    requires Increasing(log) && At(log, number, k)
    requires Saw(log, sessions)
    ensures k <= m <= |log| && Received(sessions, number) == log[k..m]
    decreases |sessions|
  {
    if sessions == [] {
      m := k;
    } else {
      var end := SessionIsASlice(log, sessions[0], number, k);
      m := ReceivedIsASlice(log, sessions[1..], Newest(number, log[k..end]), end);
      SliceJoins(log, k, end, m);
    }
  }

  /** Over any disconnects and resumes, what a client has received is a prefix of the
      log: nothing is lost in between, and nothing comes twice. */
  lemma DeliveriesFormAPrefix(log: Log, sessions: seq<Session>)
    requires Increasing(log) && Saw(log, sessions)
    ensures Received(sessions, 0) <= log
  {
    var m := ReceivedIsASlice(log, sessions, 0, 0);
    assert log[0..m] == log[..m];
  }

  lemma {:induction false} LogsGrow(runs: seq<Run>, ops: seq<Op>, i: nat, j: nat)
    requires IsRun(runs, ops) && i <= j < |runs|
    ensures runs[i].log <= runs[j].log
    decreases j - i
  {
    if i < j {
      LogsGrow(runs, ops, i, j - 1);
      assert runs[j - 1 + 1] == Step(runs[j - 1], ops[j - 1]);
      assert runs[j - 1].log <= runs[j].log;
    }
  }

  /** Every poll saw the log of some moment of the run, or its beginning: an operation
      that appends two events awaits between them. */
  ghost predicate Watched(runs: seq<Run>, sessions: seq<Session>) {
    sessions != [] ==>
      && (forall p :: p in sessions[0].polls ==> exists i :: 0 <= i < |runs| && p <= runs[i].log)
      && Watched(runs, sessions[1..])
  }

  lemma {:induction false} WatchedSaw(runs: seq<Run>, ops: seq<Op>, sessions: seq<Session>)
    requires IsRun(runs, ops) && Watched(runs, sessions)
    ensures Saw(runs[|runs| - 1].log, sessions)
    decreases |sessions|
  {
    if sessions != [] {
      forall p | p in sessions[0].polls ensures p <= runs[|runs| - 1].log {
        var i :| 0 <= i < |runs| && p <= runs[i].log;
        LogsGrow(runs, ops, i, |runs| - 1);
      }
      WatchedSaw(runs, ops, sessions[1..]);
    }
  }

  /** From the worker to the browser: of an investigation and its successful verifications,
      watched over any number of broken and resumed connections, the browser has received
      a prefix of the events, each once and in order. */
  lemma BrowserSeesAPrefix(runs: seq<Run>, ops: seq<Op>, sessions: seq<Session>)
    requires IsRun(runs, ops) && Watched(runs, sessions)
    requires forall j :: 0 <= j < |ops| ==> !ops[j].Crash? && !ops[j].VerifyFailed?
    ensures Received(sessions, 0) <= runs[|runs| - 1].log
  {
    NumbersGoUp(runs, ops, |runs| - 1);
    WatchedSaw(runs, ops, sessions);
    DeliveriesFormAPrefix(runs[|runs| - 1].log, sessions);
  }

  /** A poll that sees the whole log catches up, unless an earlier event ends the stream. */
  lemma CatchesUp(log: Log, number: int, k: nat)
    requires Increasing(log) && At(log, number, k) && forall i :: k <= i < |log| - 1 ==> !Terminal(log[i])
    ensures Sent([log], number) == log[k..]
  {
    SinceIsSuffix(log, number, k);
    var n := CutIsPrefix(log[k..]);
    forall i | 0 <= i < |log| - k - 1 ensures !Terminal(log[k..][i]) { assert log[k..][i] == log[k + i]; }
    assert [log][1..] == [];
    assert log[k..] + [] == log[k..];
  }

  // ----- the event that ends a crashed run -----

  lemma {:induction false} SinceDrops(log: Log, number: int, e: Event)
    ensures Since(log + [e], number) == Since(log, number) + if e.number > number then [e] else []
  {
    if log == [] {
      assert log + [e] == [e] && [e][1..] == [];
    } else {
      assert (log + [e])[1..] == log[1..] + [e];
      SinceDrops(log[1..], number, e);
    }
  }

  /** A stream that is up to date when the run crashes: the error event reaches it
      exactly when the run had emitted nothing. */
  lemma ErrorReachesOnlyEmptyRuns(r: Run)
    requires RunOk(r) && Possible(r, Crash)
    ensures var here := Newest(0, r.log);
      Sent([Step(r, Crash).log], here) == if r.log == [] then [Event(1, Error)] else []
  {
    var e := Event(1, Error);
    var here := Newest(0, r.log);
    assert [Step(r, Crash).log][1..] == [];
    SinceDrops(r.log, here, e);
    if r.log != [] {
      NewestOfSlice(r.log, 0, 0, |r.log|);
      assert r.log[0..|r.log|] == r.log;
      SinceIsSuffix(r.log, here, |r.log|);
      assert r.log[0].number <= here;
    }
  }
}
