/** The run store, the worker that numbers events, and the stream generator. */
module EventStream {
  import opened Common
  import opened EventLog

  // ----- the store -----

  datatype State = Waiting | Investigating | AwaitingApproval | Verifying | Finished | Broken | Reduced

  /** The store only ever appends to a run's events. */
  class RunStore {
    var runs: map<string, State>
    var events: map<string, Log>

    constructor ()
      ensures runs == map[] && events == map[]
    {
      runs, events := map[], map[];
    }

    function EventsOf(id: string): Log
      reads this
    {
      if id in events then events[id] else []
    }

    method SaveRun(id: string, state: State)
      modifies this
      ensures runs == old(runs)[id := state] && forall r :: EventsOf(r) == old(EventsOf(r))
      ensures id in events
    {
      runs := runs[id := state];
      if id !in events { events := events[id := []]; }
    }

    method EmitEvent(id: string, e: Event)
      modifies this
      ensures EventsOf(id) == old(EventsOf(id)) + [e] && runs == old(runs)
      ensures forall r :: r != id ==> EventsOf(r) == old(EventsOf(r))
    {
      if id !in events { events := events[id := []]; }
      events := events[id := events[id] + [e]];
    }

    method GetEvents(id: string, since: int) returns (found: Log)
      ensures found == Since(EventsOf(id), since)
    {
      var log := EventsOf(id);
      found := [];
      var i := 0;
      while i < |log|
        invariant 0 <= i <= |log| && Since(log, since) == found + Since(log[i..], since)
      {
        SinceStep(found, log, i, since);
        if log[i].number > since { found := found + [log[i]]; }
        i := i + 1;
      }
    }
  }

  lemma SinceStep(found: Log, log: Log, i: nat, since: int)
    requires i < |log|
    ensures found + Since(log[i..], since)
         == (if log[i].number > since then found + [log[i]] else found) + Since(log[i + 1..], since)
  {
    assert log[i..][0] == log[i] && log[i..][1..] == log[i + 1..];
    var rest := Since(log[i + 1..], since);
    assert found + ([log[i]] + rest) == (found + [log[i]]) + rest;
    assert [] + rest == rest;
  }

  // ----- the worker -----

  /** One run document and the counter of its investigation, with its store. */
  class RunWorker {
    const id: string
    const store: RunStore
    var steps: nat
    var next: nat
    var phase: Phase

    ghost function View(): Run
      reads this, store
    {
      Run(store.EventsOf(id), steps, next, phase)
    }

    constructor (id: string, store: RunStore)
      requires store.EventsOf(id) == []
      modifies store
      ensures this.id == id && this.store == store && View() == NEW_RUN
    {
      this.id, this.store := id, store;
      steps, next, phase := 0, 1, Queued;
      new;
      store.SaveRun(id, Waiting);
    }

    /** The context's counter. */
    method NextSeq() returns (n: nat)
      modifies this`next
      ensures n == old(next) && next == n + 1
    {
      n := next;
      next := next + 1;
    }

    method EmitSteps(kinds: seq<Kind>)
      requires phase == Running
      modifies this`next, store
      ensures store.EventsOf(id) == old(store.EventsOf(id)) + Counted(kinds, old(next)) && next == old(next) + |kinds|
    {
      ghost var all := store.EventsOf(id) + Counted(kinds, next);
      var i := 0;
      assert kinds[0..] == kinds;
      while i < |kinds|
        invariant 0 <= i <= |kinds| && next == old(next) + i
        invariant all == store.EventsOf(id) + Counted(kinds[i..], next)
      {
        CountedHead(kinds, i, next);
        var n := NextSeq();
        store.EmitEvent(id, Event(n, kinds[i]));
        i := i + 1;
      }
    }

    method Begin()
      requires phase == Queued
      modifies this, store
      ensures View() == Step(old(View()), Start)
    {
      store.EmitEvent(id, Event(1, Plan));
      next, phase := 2, Running;
    }

    method ConcludeRun(last: Kind)
      requires phase == Running
      modifies this, store
      ensures View() == Step(old(View()), Conclude(last))
    {
      var n := NextSeq();
      store.EmitEvent(id, Event(n, last));
      steps, phase := next, Concluded;
    }

    /** The handler of an investigation that raised. */
    method FailRun()
      requires phase == Running || phase == Queued
      modifies this, store
      ensures View() == Step(old(View()), Crash)
    {
      store.SaveRun(id, Broken);
      store.EmitEvent(id, Event(steps + 1, Error));
      phase := Failed;
    }

    /** The background task: the plan, the investigation's events, then its last event, or
        an exception after the events given. */
    method ExecuteLoop(kinds: seq<Kind>, last: Option<Kind>)
      requires View() == NEW_RUN
      modifies this, store
      ensures last.Some? ==> View() == Run(Counted([Plan] + kinds, 1) + [Event(|kinds| + 2, last.value)], |kinds| + 3, |kinds| + 3, Concluded)
      ensures last.None? ==> View() == Run(Counted([Plan] + kinds, 1) + [Event(1, Error)], 0, |kinds| + 2, Failed)
      ensures RunOk(View())
    {
      Begin();
      EmitSteps(kinds);
      CountedCons(kinds);
      if last.Some? {
        ConcludedRunIsOk(kinds, last.value);
        ConcludeRun(last.value);
      } else {
        FailRun();
      }
    }

    /** `outcome` is whether the fleet recovered, or nothing when verification failed. */
    method VerifyRun(outcome: Option<bool>)
      requires phase == Concluded
      modifies this, store
      ensures View() == Step(old(View()), if outcome.Some? then VerifyDone else VerifyFailed)
    {
      var seqNumber := steps + 1;
      if outcome.None? {
        store.SaveRun(id, Reduced);
        store.EmitEvent(id, Event(seqNumber, Degraded));
        return;
      }
      steps := seqNumber + 1;
      store.SaveRun(id, if outcome.value then Finished else Reduced);
      store.EmitEvent(id, Event(seqNumber, Verification));
      store.EmitEvent(id, Event(seqNumber + 1, Completed));
    }
  }

  /** Events numbered from `from` on. */
  function Counted(kinds: seq<Kind>, from: nat): Log
    decreases |kinds|
  {
    if kinds == [] then [] else [Event(from, kinds[0])] + Counted(kinds[1..], from + 1)
  }

  lemma CountedHead(kinds: seq<Kind>, i: nat, from: nat)
    requires i < |kinds|
    ensures Counted(kinds[i..], from) == [Event(from, kinds[i])] + Counted(kinds[i + 1..], from + 1)
  {
    assert kinds[i..][0] == kinds[i] && kinds[i..][1..] == kinds[i + 1..];
  }

  lemma CountedCons(kinds: seq<Kind>)
    ensures Counted([Plan] + kinds, 1) == [] + [Event(1, Plan)] + Counted(kinds, 2)
  {
    assert ([Plan] + kinds)[1..] == kinds;
  }

  lemma {:induction false} OneMoreCounted(kinds: seq<Kind>, from: nat, k: Kind)
    ensures Counted(kinds + [k], from) == Counted(kinds, from) + [Event(from + |kinds|, k)]
    decreases |kinds|
  {
    if kinds == [] {
      assert [k][1..] == [] && kinds + [k] == [k];
    } else {
      assert (kinds + [k])[0] == kinds[0] && (kinds + [k])[1..] == kinds[1..] + [k];
      OneMoreCounted(kinds[1..], from + 1, k);
    }
  }

  lemma {:induction false} CountedAt(kinds: seq<Kind>, from: nat, i: nat)
    requires i < |kinds|
    ensures |Counted(kinds, from)| == |kinds| && Counted(kinds, from)[i] == Event(from + i, kinds[i])
    decreases |kinds|
  {
    if i > 0 { CountedAt(kinds[1..], from + 1, i - 1); }
    else if |kinds| > 1 { CountedAt(kinds[1..], from + 1, 0); }
  }

  /** A concluded run satisfies what every later verification relies on. */
  lemma CountedGoesUp(kinds: seq<Kind>, from: nat)
    requires from >= 1 && kinds != []
    ensures Numbered(Counted(kinds, from), from + |kinds|)
  {
    CountedAt(kinds, from, 0);
    forall i | 0 <= i < |kinds| ensures Counted(kinds, from)[i] == Event(from + i, kinds[i]) { CountedAt(kinds, from, i); }
  }

  lemma OneMoreGoesUp(kinds: seq<Kind>, last: Kind)
    ensures Numbered(Counted(kinds, 1) + [Event(|kinds| + 1, last)], |kinds| + 2)
  {
    OneMoreCounted(kinds, 1, last);
    CountedGoesUp(kinds + [last], 1);
  }

  lemma ConcludedRunIsOk(kinds: seq<Kind>, last: Kind)
    ensures RunOk(Run(Counted([Plan] + kinds, 1) + [Event(|kinds| + 2, last)], |kinds| + 3, |kinds| + 3, Concluded))
  {
    OneMoreGoesUp([Plan] + kinds, last);
  }

  // ----- the stream -----

  datatype Frame = Connected | Data(e: Event) | Heartbeat | Timeout

  /** One turn of the polling loop: the clock, what the worker answered (nothing when it
      could not be reached), and the clock after the answer. */
  datatype Poll = Poll(now: real, answer: Option<Log>, after: real)

  function Delivered(frames: seq<Frame>): Log {
    if frames == [] then []
    else Delivered(frames[..|frames| - 1]) + if frames[|frames| - 1].Data? then [frames[|frames| - 1].e] else []
  }

  /** The logs a stream opened at `start` gets to see before its duration ceiling. */
  function Seen(polls: seq<Poll>, start: real, ceiling: real): seq<Log> {
    if polls == [] || polls[0].now - start >= ceiling then []
    else (if polls[0].answer.Some? then [polls[0].answer.value] else []) + Seen(polls[1..], start, ceiling)
  }

  lemma OneFrame(frames: seq<Frame>, f: Frame)
    ensures Delivered(frames + [f]) == Delivered(frames) + if f.Data? then [f.e] else []
  {
    assert (frames + [f])[..|frames|] == frames;
  }

  function Frames(events: Log): seq<Frame> { seq(|events|, i requires 0 <= i < |events| => Data(events[i])) }

  lemma {:induction false} FramesDeliver(sent: seq<Frame>, events: Log)
    ensures Delivered(sent + Frames(events)) == Delivered(sent) + events
    decreases |events|
  {
    var all := sent + Frames(events);
    if events == [] {
      assert all == sent;
    } else {
      var front := events[..|events| - 1];
      assert all[..|all| - 1] == sent + Frames(front);
      FramesDeliver(sent, front);
      assert events == front + [events[|events| - 1]];
    }
  }

  lemma {:induction false} NewestJoins(number: int, events: Log, e: Event)
    ensures Newest(number, events + [e]) == if e.number > Newest(number, events) then e.number else Newest(number, events)
    decreases |events|
  {
    if events == [] {
      assert events + [e] == [e] && [e][1..] == [];
    } else {
      assert (events + [e])[0] == events[0] && (events + [e])[1..] == events[1..] + [e];
      NewestJoins(if events[0].number > number then events[0].number else number, events[1..], e);
    }
  }

  /** The events of one answer, up to the first terminal one. */
  method SendBatch(events: Log, since: int) returns (out: Log, current: int, finished: bool)
    ensures out == Cut(events) && current == Newest(since, out) && (finished <==> Ends(out))
  {
    out, current, finished := [], since, false;
    ghost var n := CutIsPrefix(events);
    var i := 0;
    while i < |events| && !finished
      invariant 0 <= i <= n && out == events[..i] && current == Newest(since, out)
      invariant finished <==> i > 0 && Terminal(events[i - 1])
    {
      var e := events[i];
      NewestJoins(since, out, e);
      out := out + [e];
      current := if e.number > current then e.number else current;
      finished := Terminal(e);
      i := i + 1;
    }
  }

  /** One answered turn: its events, and a heartbeat when one is due. */
  method TakeTurn(p: Poll, sent: seq<Frame>, since: int, lastBeat: real, interval: real)
    returns (frames: seq<Frame>, current: int, beat: real, finished: bool)
    requires p.answer.Some? && sent != [] && !sent[|sent| - 1].Timeout?
    ensures var d := Cut(Since(p.answer.value, since));
      Delivered(frames) == Delivered(sent) + d && current == Newest(since, d) && (finished <==> Ends(d))
    ensures frames != [] && frames[0] == sent[0] && !frames[|frames| - 1].Timeout?
  {
    beat := lastBeat;
    var out;
    out, current, finished := SendBatch(Since(p.answer.value, since), since);
    FramesDeliver(sent, out);
    frames := sent + Frames(out);
    if !finished && p.after - beat >= interval {
      OneFrame(frames, Heartbeat);
      frames := frames + [Heartbeat];
      beat := p.after;
    }
  }

  /** One turn before the ceiling: what was ahead is delivered or still ahead. */
  method PollOnce(polls: seq<Poll>, i: nat, start: real, ceiling: real, sent: seq<Frame>, since: int, lastBeat: real, interval: real)
    returns (frames: seq<Frame>, current: int, beat: real, finished: bool)
    requires i < |polls| && polls[i].now - start < ceiling && sent != [] && !sent[|sent| - 1].Timeout?
    ensures Delivered(sent) + Ahead(polls, i, start, ceiling, since)
         == Delivered(frames) + Left(polls, i + 1, start, ceiling, current, finished)
    ensures frames != [] && frames[0] == sent[0] && !frames[|frames| - 1].Timeout?
  {
    frames, current, beat, finished := sent, since, lastBeat, false;
    if polls[i].answer.Some? {
      frames, current, beat, finished := TakeTurn(polls[i], sent, since, lastBeat, interval);
      AnsweredTurn(polls, i, start, ceiling, since, Delivered(sent));
    } else {
      OneTurn(polls, i, start, ceiling, since);
    }
  }

  /** The generator. It ends with a terminal event, at the ceiling, or when the client
      leaves, here when no more turns are given. */
  method EventGenerator(since: int, start: real, polls: seq<Poll>, ceiling: real, interval: real) returns (frames: seq<Frame>, turns: nat)
    ensures Delivered(frames) == Sent(Seen(polls, start, ceiling), since)
    ensures frames != [] && frames[0] == Connected && turns <= |polls|
    ensures InTime(polls, turns, start, ceiling)
    ensures frames[|frames| - 1].Timeout? ==> turns < |polls| && polls[turns].now - start >= ceiling
  {
    frames, turns := [Connected], 0;
    AllAhead(polls, start, ceiling, since);
    ghost var all := Ahead(polls, 0, start, ceiling, since);
    var current, beat, finished := since, start, false;
    while turns < |polls| && !finished
      invariant 0 <= turns <= |polls| && frames != [] && frames[0] == Connected && !frames[|frames| - 1].Timeout?
      invariant InTime(polls, turns, start, ceiling)
      invariant all == Delivered(frames) + Left(polls, turns, start, ceiling, current, finished)
    {
      if polls[turns].now - start >= ceiling {
        NothingLeft(polls, turns, start, ceiling, current, finished, Delivered(frames));
        TimeoutEnds(frames);
        frames := frames + [Timeout];
        return;
      }
      frames, current, beat, finished := PollOnce(polls, turns, start, ceiling, frames, current, beat, interval);
      turns := turns + 1;
    }
    NothingLeft(polls, turns, start, ceiling, current, finished, Delivered(frames));
  }

  lemma AllAhead(polls: seq<Poll>, start: real, ceiling: real, since: int)
    ensures Ahead(polls, 0, start, ceiling, since) == Sent(Seen(polls, start, ceiling), since) && Delivered([Connected]) == []
  {
    assert polls[0..] == polls && [Connected][..0] == [];
  }

  lemma TimeoutEnds(frames: seq<Frame>)
    requires frames != []
    ensures var all := frames + [Timeout]; Delivered(all) == Delivered(frames) && all[0] == frames[0] && all[|all| - 1].Timeout?
  {
    OneFrame(frames, Timeout);
    assert Delivered(frames) + [] == Delivered(frames);
  }

  lemma NothingLeft(polls: seq<Poll>, i: nat, start: real, ceiling: real, current: int, finished: bool, sent: Log)
    requires i <= |polls| && (finished || i == |polls| || polls[i].now - start >= ceiling)
    ensures sent + Left(polls, i, start, ceiling, current, finished) == sent
  {
    if !finished {
      if i < |polls| { assert polls[i..][0] == polls[i]; }
      assert Seen(polls[i..], start, ceiling) == [];
    }
  }

  /** The first `n` turns began before the ceiling. */
  predicate InTime(polls: seq<Poll>, n: nat, start: real, ceiling: real)
    requires n <= |polls|
  {
    n > 0 ==> polls[n - 1].now - start < ceiling && InTime(polls, n - 1, start, ceiling)
  }

  /** What is still to be sent from turn `i` on. */
  function Ahead(polls: seq<Poll>, i: nat, start: real, ceiling: real, current: int): Log
    requires i <= |polls|
  {
    Sent(Seen(polls[i..], start, ceiling), current)
  }

  function Left(polls: seq<Poll>, i: nat, start: real, ceiling: real, current: int, finished: bool): Log
    requires i <= |polls|
  {
    if finished then [] else Ahead(polls, i, start, ceiling, current)
  }

  lemma OneTurn(polls: seq<Poll>, i: nat, start: real, ceiling: real, current: int)
    requires i < |polls|
    ensures var p := polls[i];
      Ahead(polls, i, start, ceiling, current)
        == if p.now - start >= ceiling then []
           else if p.answer.None? then Ahead(polls, i + 1, start, ceiling, current)
           else
             var d := Cut(Since(p.answer.value, current));
             if Ends(d) then d else d + Ahead(polls, i + 1, start, ceiling, Newest(current, d))
  {
    assert polls[i..][0] == polls[i] && polls[i..][1..] == polls[i + 1..];
    var rest := Seen(polls[i + 1..], start, ceiling);
    if polls[i].answer.Some? {
      assert ([polls[i].answer.value] + rest)[1..] == rest;
    } else {
      assert [] + rest == rest;
    }
  }

  lemma AnsweredTurn(polls: seq<Poll>, i: nat, start: real, ceiling: real, since: int, before: Log)
    requires i < |polls| && polls[i].now - start < ceiling && polls[i].answer.Some?
    ensures var d := Cut(Since(polls[i].answer.value, since));
      before + Ahead(polls, i, start, ceiling, since)
        == before + d + if Ends(d) then [] else Ahead(polls, i + 1, start, ceiling, Newest(since, d))
  {
    OneTurn(polls, i, start, ceiling, since);
  }

  /** Where a connection resumes: the query parameter or the Last-Event-ID, whichever is later. */
  function ResumePoint(since: int, lastEventId: Option<nat>): int {
    if lastEventId.Some? && lastEventId.value > since then lastEventId.value else since
  }

  lemma IncreasingTail(log: Log)
    requires Increasing(log) && log != []
    ensures Increasing(log[1..])
  {
    forall i, j | 0 <= i < j < |log[1..]| ensures log[1..][i].number < log[1..][j].number {
      assert log[i + 1].number < log[j + 1].number;
    }
  }

  lemma {:induction false} NewestIsLast(number: int, got: Log)
    requires Increasing(got) && got != []
    ensures var last := got[|got| - 1].number; Newest(number, got) == if last > number then last else number
    decreases |got|
  {
    if |got| > 1 {
      IncreasingTail(got);
      assert got[0].number < got[|got| - 1].number;
      NewestIsLast(if got[0].number > number then got[0].number else number, got[1..]);
    }
  }

  /** The id a browser sends back after a break is where its events ended, as the numbers go up. */
  lemma ResumesBehindTheLast(since: nat, got: Log)
    requires Increasing(got) && got != []
    ensures ResumePoint(since, Some(got[|got| - 1].number)) == Newest(since, got)
  {
    NewestIsLast(since, got);
  }
}
