/** Approved remediations as a machine whose steps are the stretches between two
    awaits of the action executor; any number of approvals interleave. */
module Remediation {
  import opened Common

  type Caller = nat
  type LockId = nat

  datatype Status = SUCCESS | FAILED

  /** The control plane's answer, with what the Grafana write-back added. */
  datatype Result = Result(body: string, annotation: Option<string>, incident: Option<string>)

  datatype Record = Record(key: string, status: Status, result: Result)

  datatype Answer = Applied(status: Status, result: Result) | AlreadyApplied(result: Result)

  /** Where a caller is suspended. `atRisk` says its approval names deliverables at risk. */
  datatype Phase =
    | Waiting(key: string, atRisk: bool, lock: LockId)
    | Checking(key: string, atRisk: bool, lock: LockId)
    | Posting(key: string, atRisk: bool, lock: LockId)
    | Annotating(key: string, atRisk: bool, lock: LockId, result: Result)
    | OpeningIncident(key: string, atRisk: bool, lock: LockId, result: Result)
    | Saving(key: string, lock: LockId, status: Status, result: Result)
    | Auditing(key: string, lock: LockId, status: Status, result: Result)
    | Done(key: string, answer: Answer)

  datatype Settings = Settings(writeback: bool, incidents: bool)

  /** `executor` remembers who called the control plane for each key; `posts` is
      the history of those calls. */
  datatype State = State(
    keyLocks: map<string, LockId>,
    nextLock: LockId,
    owner: map<LockId, Caller>,
    callers: map<Caller, Phase>,
    approvals: map<string, Record>,
    audit: seq<Record>,
    posts: seq<string>,
    executor: map<string, Caller>)

  datatype Event =
    | Arrive(c: Caller, key: string, atRisk: bool)
    | Acquire(c: Caller)
    | Check(c: Caller)
    | Respond(c: Caller, reply: Option<string>, error: string)
    | Annotated(c: Caller, note: string)
    | IncidentOpened(c: Caller, note: string)
    | Save(c: Caller)
    | Audit(c: Caller)

  const Init := State(map[], 0, map[], map[], map[], [], [], map[])

  predicate Holds(p: Phase) { !p.Waiting? && !p.Done? }

  predicate Enabled(s: State, e: Event) {
    if e.Arrive? then e.c !in s.callers
    else
      && e.c in s.callers
      && var p := s.callers[e.c];
         match e
         case Acquire(_) => p.Waiting? && p.lock !in s.owner
         case Check(_) => p.Checking?
         case Respond(_, _, _) => p.Posting?
         case Annotated(_, _) => p.Annotating?
         case IncidentOpened(_, _) => p.OpeningIncident?
         case Save(_) => p.Saving?
         case Audit(_) => p.Auditing?
  }

  function Moved(s: State, c: Caller, p: Phase): State { s.(callers := s.callers[c := p]) }

  function Released(s: State, lock: LockId): State { s.(owner := s.owner - {lock}) }

  function Step(cfg: Settings, s: State, e: Event): State
    requires Enabled(s, e)
  {
    match e
    case Arrive(c, key, atRisk) =>
      if key in s.keyLocks then Moved(s, c, Waiting(key, atRisk, s.keyLocks[key]))
      else
        Moved(s, c, Waiting(key, atRisk, s.nextLock))
          .(keyLocks := s.keyLocks[key := s.nextLock], nextLock := s.nextLock + 1)
    case Acquire(c) =>
      var p := s.callers[c];
      Moved(s, c, Checking(p.key, p.atRisk, p.lock)).(owner := s.owner[p.lock := c])
    case Check(c) =>
      var p := s.callers[c];
      if p.key in s.approvals then
        Released(Moved(s, c, Done(p.key, AlreadyApplied(s.approvals[p.key].result))), p.lock)
      else
        Moved(s, c, Posting(p.key, p.atRisk, p.lock))
          .(posts := s.posts + [p.key], executor := s.executor[p.key := c])
    case Respond(c, reply, error) =>
      var p := s.callers[c];
      if reply.None? then Moved(s, c, Saving(p.key, p.lock, FAILED, Result(error, None, None)))
      else if cfg.writeback then Moved(s, c, Annotating(p.key, p.atRisk, p.lock, Result(reply.value, None, None)))
      else Moved(s, c, Saving(p.key, p.lock, SUCCESS, Result(reply.value, None, None)))
    case Annotated(c, note) =>
      var p := s.callers[c];
      var result := p.result.(annotation := Some(note));
      if p.atRisk && cfg.incidents then Moved(s, c, OpeningIncident(p.key, p.atRisk, p.lock, result))
      else Moved(s, c, Saving(p.key, p.lock, SUCCESS, result))
    case IncidentOpened(c, note) =>
      var p := s.callers[c];
      Moved(s, c, Saving(p.key, p.lock, SUCCESS, p.result.(incident := Some(note))))
    case Save(c) =>
      var p := s.callers[c];
      Moved(s, c, Auditing(p.key, p.lock, p.status, p.result))
        .(approvals := s.approvals[p.key := Record(p.key, p.status, p.result)])
    case Audit(c) =>
      var p := s.callers[c];
      Released(Moved(s, c, Done(p.key, Applied(p.status, p.result))), p.lock)
        .(audit := s.audit + [Record(p.key, p.status, p.result)])
  }

  // ----- what every step keeps -----

  ghost predicate LocksOk(s: State) {
    && (forall k :: k in s.keyLocks ==> s.keyLocks[k] < s.nextLock)
    && (forall k, l :: k in s.keyLocks && l in s.keyLocks && s.keyLocks[k] == s.keyLocks[l] ==> k == l)
    && (forall c :: c in s.callers && !s.callers[c].Done? ==>
          s.callers[c].key in s.keyLocks && s.callers[c].lock == s.keyLocks[s.callers[c].key])
    && (forall c :: c in s.callers && Holds(s.callers[c]) ==>
          s.callers[c].lock in s.owner && s.owner[s.callers[c].lock] == c)
    && (forall l :: l in s.owner ==>
          s.owner[l] in s.callers && Holds(s.callers[s.owner[l]]) && s.callers[s.owner[l]].lock == l)
  }

  /** Past the control-plane call, up to and including its own return. */
  predicate Executing(p: Phase) {
    p.Posting? || p.Annotating? || p.OpeningIncident? || p.Saving? || p.Auditing? || (p.Done? && p.answer.Applied?)
  }

  predicate Unsaved(p: Phase) { p.Posting? || p.Annotating? || p.OpeningIncident? || p.Saving? }

  ghost predicate PostsOk(s: State) {
    && (forall i, j :: 0 <= i < j < |s.posts| ==> s.posts[i] != s.posts[j])
    && (forall k :: k in s.posts <==> k in s.executor)
    && (forall k :: k in s.executor ==>
          s.executor[k] in s.callers && s.callers[s.executor[k]].key == k && Executing(s.callers[s.executor[k]]))
    && (forall c :: c in s.callers && Executing(s.callers[c]) ==>
          s.callers[c].key in s.executor && s.executor[s.callers[c].key] == c)
  }

  /** The record a caller past its save has left. */
  predicate LeftRecord(p: Phase, r: Record) {
    || (p.Auditing? && r == Record(p.key, p.status, p.result))
    || (p.Done? && p.answer.Applied? && r == Record(p.key, p.answer.status, p.answer.result))
  }

  ghost predicate RecordsOk(s: State) {
    && (forall k :: k in s.approvals ==>
          k in s.executor && s.executor[k] in s.callers && LeftRecord(s.callers[s.executor[k]], s.approvals[k]))
    && (forall k :: k in s.executor && k !in s.approvals ==> s.executor[k] in s.callers && Unsaved(s.callers[s.executor[k]]))
    && (forall c :: c in s.callers && s.callers[c].Done? && s.callers[c].answer.AlreadyApplied? ==>
          s.callers[c].key in s.approvals && s.approvals[s.callers[c].key].result == s.callers[c].answer.result)
  }

  predicate Returned(s: State, k: string) {
    k in s.executor && s.executor[k] in s.callers && s.callers[s.executor[k]].Done?
  }

  /** One audit record per key whose executing caller has returned, and no other. */
  ghost predicate AuditOk(s: State) {
    && (forall i, j :: 0 <= i < j < |s.audit| ==> s.audit[i].key != s.audit[j].key)
    && (forall r :: r in s.audit ==> r.key in s.approvals && s.approvals[r.key] == r && Returned(s, r.key))
    && (forall k :: k in s.approvals && Returned(s, k) ==> s.approvals[k] in s.audit)
  }

  ghost predicate Inv(s: State) { LocksOk(s) && PostsOk(s) && RecordsOk(s) && AuditOk(s) }

  /** Only one caller per key is inside the locked section. */
  lemma OneHolder(s: State, c: Caller, d: Caller)
    requires LocksOk(s) && c in s.callers && d in s.callers && Holds(s.callers[c]) && Holds(s.callers[d])
    requires s.callers[c].key == s.callers[d].key
    ensures c == d
  {}

  // Each lemma below looks at one part of the invariant and one kind of move:
  // caller `c` goes to `p` between states `s` and `t`.

  ghost predicate Moves(s: State, t: State, c: Caller, p: Phase) {
    t.callers == s.callers[c := p]
  }

  predicate NotExecuting(s: State, c: Caller) { c in s.callers ==> !Executing(s.callers[c]) }

  lemma ArriveAtLock(s: State, t: State, c: Caller, p: Phase)
    requires LocksOk(s) && Moves(s, t, c, p) && c !in s.callers && p.Waiting? && t.owner == s.owner
    requires p.key in s.keyLocks && p.lock == s.keyLocks[p.key] && t.keyLocks == s.keyLocks && t.nextLock == s.nextLock
    ensures LocksOk(t)
  {}

  lemma ArriveAtNewLock(s: State, t: State, c: Caller, p: Phase)
    requires LocksOk(s) && Moves(s, t, c, p) && c !in s.callers && p.Waiting? && t.owner == s.owner
    requires p.key !in s.keyLocks && p.lock == s.nextLock
    requires t.keyLocks == s.keyLocks[p.key := p.lock] && t.nextLock == s.nextLock + 1
    ensures LocksOk(t)
  {}

  lemma ArriveLocks(s: State, t: State, c: Caller, p: Phase)
    requires LocksOk(s) && Moves(s, t, c, p) && c !in s.callers && p.Waiting? && t.owner == s.owner
    requires if p.key in s.keyLocks then p.lock == s.keyLocks[p.key] && t.keyLocks == s.keyLocks && t.nextLock == s.nextLock
             else p.lock == s.nextLock && t.keyLocks == s.keyLocks[p.key := p.lock] && t.nextLock == s.nextLock + 1
    ensures LocksOk(t)
  {
    if p.key in s.keyLocks { ArriveAtLock(s, t, c, p); } else { ArriveAtNewLock(s, t, c, p); }
  }

  lemma AcquireLocks(s: State, t: State, c: Caller, p: Phase)
    requires LocksOk(s) && Moves(s, t, c, p) && c in s.callers && s.callers[c].Waiting? && p.Checking?
    requires p.key == s.callers[c].key && p.lock == s.callers[c].lock && p.lock !in s.owner
    requires t.owner == s.owner[p.lock := c] && t.keyLocks == s.keyLocks && t.nextLock == s.nextLock
    ensures LocksOk(t)
  {}

  lemma AdvanceLocks(s: State, t: State, c: Caller, p: Phase)
    requires LocksOk(s) && Moves(s, t, c, p) && c in s.callers && Holds(s.callers[c]) && Holds(p)
    requires p.key == s.callers[c].key && p.lock == s.callers[c].lock
    requires t.owner == s.owner && t.keyLocks == s.keyLocks && t.nextLock == s.nextLock
    ensures LocksOk(t)
  {}

  lemma ReleaseLocks(s: State, t: State, c: Caller, p: Phase)
    requires LocksOk(s) && Moves(s, t, c, p) && c in s.callers && Holds(s.callers[c]) && p.Done?
    requires t.owner == s.owner - {s.callers[c].lock} && t.keyLocks == s.keyLocks && t.nextLock == s.nextLock
    ensures LocksOk(t)
  {}

  lemma QuietPosts(s: State, t: State, c: Caller, p: Phase)
    requires PostsOk(s) && Moves(s, t, c, p) && NotExecuting(s, c) && !Executing(p)
    requires t.posts == s.posts && t.executor == s.executor
    ensures PostsOk(t)
  {}

  lemma CallPosts(s: State, t: State, c: Caller, p: Phase)
    requires PostsOk(s) && Moves(s, t, c, p) && NotExecuting(s, c) && p.Posting? && p.key !in s.executor
    requires t.posts == s.posts + [p.key] && t.executor == s.executor[p.key := c]
    ensures PostsOk(t)
  {}

  lemma AdvancePosts(s: State, t: State, c: Caller, p: Phase)
    requires PostsOk(s) && Moves(s, t, c, p) && c in s.callers && Executing(s.callers[c]) && Executing(p)
    requires p.key == s.callers[c].key && t.posts == s.posts && t.executor == s.executor
    ensures PostsOk(t)
  {}

  lemma QuietRecords(s: State, t: State, c: Caller, p: Phase)
    requires RecordsOk(s) && Moves(s, t, c, p) && NotExecuting(s, c)
    requires t.executor == s.executor && t.approvals == s.approvals
    requires c in s.callers ==> !s.callers[c].Done?
    requires p.Done? ==> p.answer.AlreadyApplied? && p.key in s.approvals && s.approvals[p.key].result == p.answer.result
    ensures RecordsOk(t)
  {}

  lemma CallRecords(s: State, t: State, c: Caller, p: Phase)
    requires RecordsOk(s) && Moves(s, t, c, p) && c in s.callers && s.callers[c].Checking? && p.Posting?
    requires p.key !in s.executor && t.executor == s.executor[p.key := c] && t.approvals == s.approvals
    ensures RecordsOk(t)
  {}

  lemma AdvanceRecords(s: State, t: State, c: Caller, p: Phase)
    requires RecordsOk(s) && Moves(s, t, c, p) && c in s.callers && Unsaved(s.callers[c]) && Unsaved(p)
    requires t.executor == s.executor && t.approvals == s.approvals
    ensures RecordsOk(t)
  {}

  lemma SaveRecords(s: State, t: State, c: Caller, p: Phase)
    requires RecordsOk(s) && Moves(s, t, c, p) && c in s.callers && Unsaved(s.callers[c]) && p.Auditing?
    requires p.key in s.executor && s.executor[p.key] == c && t.executor == s.executor
    requires forall k :: k in s.executor && s.executor[k] == c ==> k == p.key
    requires t.approvals == s.approvals[p.key := Record(p.key, p.status, p.result)]
    ensures RecordsOk(t)
  {
    assert p.key !in s.approvals;
  }

  lemma ReturnRecords(s: State, t: State, c: Caller, p: Phase)
    requires RecordsOk(s) && Moves(s, t, c, p) && c in s.callers && s.callers[c].Auditing?
    requires p == Done(s.callers[c].key, Applied(s.callers[c].status, s.callers[c].result))
    requires t.executor == s.executor && t.approvals == s.approvals
    ensures RecordsOk(t)
  {}

  /** Any move that leaves the trail alone and finishes no execution. */
  lemma SameTrail(s: State, t: State, c: Caller, p: Phase)
    requires AuditOk(s) && Moves(s, t, c, p) && t.audit == s.audit
    requires Executing(p) ==> !p.Done?
    requires c in s.callers ==> !s.callers[c].Done?
    requires forall k :: k in s.executor ==> k in t.executor && t.executor[k] == s.executor[k]
    requires forall k :: k in s.approvals ==> k in t.approvals && t.approvals[k] == s.approvals[k]
    requires forall k :: k in t.executor && t.executor[k] == c ==> Executing(p)
    requires forall k :: k in t.executor && t.executor[k] != c ==> k in s.executor
    requires forall k :: k in t.approvals && k !in s.approvals ==> k in t.executor && t.executor[k] == c
    ensures AuditOk(t)
  {}

  lemma ReturnTrail(s: State, t: State, c: Caller, p: Phase)
    requires AuditOk(s) && Moves(s, t, c, p) && c in s.callers && s.callers[c].Auditing? && p.Done? && p.answer.Applied?
    requires p.key in s.executor && s.executor[p.key] == c && t.executor == s.executor && t.approvals == s.approvals
    requires forall k :: k in s.executor && s.executor[k] == c ==> k == p.key
    requires p.key in s.approvals && s.approvals[p.key] == Record(p.key, p.answer.status, p.answer.result)
    requires t.audit == s.audit + [s.approvals[p.key]]
    ensures AuditOk(t)
  {
    assert forall r | r in s.audit :: Returned(s, r.key) && r.key != p.key;
    forall k | k in t.approvals && Returned(t, k)
      ensures t.approvals[k] in t.audit
    {
      if k != p.key { assert Returned(s, k); }
    }
  }

  predicate SameHistory(s: State, t: State) {
    t.posts == s.posts && t.executor == s.executor && t.approvals == s.approvals && t.audit == s.audit
  }

  predicate SameLocks(s: State, t: State) {
    t.owner == s.owner && t.keyLocks == s.keyLocks && t.nextLock == s.nextLock
  }

  lemma QuietAll(s: State, t: State, c: Caller, p: Phase)
    requires Inv(s) && LocksOk(t) && Moves(s, t, c, p) && SameHistory(s, t) && NotExecuting(s, c) && !Executing(p)
    requires c in s.callers ==> !s.callers[c].Done?
    requires p.Done? ==> p.answer.AlreadyApplied? && p.key in s.approvals && s.approvals[p.key].result == p.answer.result
    ensures Inv(t)
  {
    QuietPosts(s, t, c, p); QuietRecords(s, t, c, p); SameTrail(s, t, c, p);
  }

  lemma RepeatAll(s: State, t: State, c: Caller, p: Phase)
    requires Inv(s) && Moves(s, t, c, p) && SameHistory(s, t) && c in s.callers && s.callers[c].Checking?
    requires s.callers[c].key in s.approvals && p == Done(s.callers[c].key, AlreadyApplied(s.approvals[s.callers[c].key].result))
    requires t.owner == s.owner - {s.callers[c].lock} && t.keyLocks == s.keyLocks && t.nextLock == s.nextLock
    ensures Inv(t)
  {
    ReleaseLocks(s, t, c, p); QuietAll(s, t, c, p);
  }

  lemma CallAll(s: State, t: State, c: Caller, p: Phase)
    requires Inv(s) && Moves(s, t, c, p) && SameLocks(s, t) && c in s.callers && s.callers[c].Checking?
    requires p.Posting? && p.key == s.callers[c].key && p.lock == s.callers[c].lock && p.key !in s.approvals
    requires t.posts == s.posts + [p.key] && t.executor == s.executor[p.key := c]
    requires t.approvals == s.approvals && t.audit == s.audit
    ensures Inv(t)
  {
    if p.key in s.executor { OneHolder(s, c, s.executor[p.key]); }
    AdvanceLocks(s, t, c, p); CallPosts(s, t, c, p); CallRecords(s, t, c, p); SameTrail(s, t, c, p);
  }

  lemma AdvanceAll(s: State, t: State, c: Caller, p: Phase)
    requires Inv(s) && Moves(s, t, c, p) && SameLocks(s, t) && SameHistory(s, t)
    requires c in s.callers && Unsaved(s.callers[c]) && Unsaved(p)
    requires p.key == s.callers[c].key && p.lock == s.callers[c].lock
    ensures Inv(t)
  {
    AdvanceLocks(s, t, c, p); AdvancePosts(s, t, c, p); AdvanceRecords(s, t, c, p); SameTrail(s, t, c, p);
  }

  lemma SaveAll(s: State, t: State, c: Caller, p: Phase)
    requires Inv(s) && Moves(s, t, c, p) && SameLocks(s, t) && c in s.callers && Unsaved(s.callers[c]) && p.Auditing?
    requires p.key == s.callers[c].key && p.lock == s.callers[c].lock
    requires t.posts == s.posts && t.executor == s.executor && t.audit == s.audit
    requires t.approvals == s.approvals[p.key := Record(p.key, p.status, p.result)]
    ensures Inv(t)
  {
    AdvanceLocks(s, t, c, p); AdvancePosts(s, t, c, p); SaveRecords(s, t, c, p); SameTrail(s, t, c, p);
  }

  lemma ReturnAll(s: State, t: State, c: Caller, p: Phase)
    requires Inv(s) && Moves(s, t, c, p) && LocksOk(t) && c in s.callers && s.callers[c].Auditing?
    requires p == Done(s.callers[c].key, Applied(s.callers[c].status, s.callers[c].result))
    requires t.posts == s.posts && t.executor == s.executor && t.approvals == s.approvals
    requires t.audit == s.audit + [Record(p.key, p.answer.status, p.answer.result)]
    ensures Inv(t)
  {
    AdvancePosts(s, t, c, p); ReturnRecords(s, t, c, p); ReturnTrail(s, t, c, p);
  }

  /** A newcomer waits for its key's lock, which is made when it is the first. */
  lemma ArriveMoves(cfg: Settings, s: State, e: Event, t: State)
    requires Enabled(s, e) && e.Arrive? && t == Step(cfg, s, e)
    ensures e.c !in s.callers && e.c in t.callers && t.callers[e.c].Waiting? && t.owner == s.owner
    ensures Moves(s, t, e.c, t.callers[e.c]) && SameHistory(s, t)
    ensures var p := t.callers[e.c];
      if p.key in s.keyLocks then p.lock == s.keyLocks[p.key] && t.keyLocks == s.keyLocks && t.nextLock == s.nextLock
      else p.lock == s.nextLock && t.keyLocks == s.keyLocks[p.key := p.lock] && t.nextLock == s.nextLock + 1
  {}

  lemma ArriveKeeps(cfg: Settings, s: State, e: Event, t: State)
    requires Inv(s) && Enabled(s, e) && e.Arrive? && t == Step(cfg, s, e)
    ensures Inv(t)
  {
    ArriveMoves(cfg, s, e, t);
    ArriveLocks(s, t, e.c, t.callers[e.c]);
    QuietAll(s, t, e.c, t.callers[e.c]);
  }

  lemma AcquireKeeps(cfg: Settings, s: State, e: Event, t: State)
    requires Inv(s) && Enabled(s, e) && e.Acquire? && t == Step(cfg, s, e)
    ensures Inv(t)
  {
    AcquireLocks(s, t, e.c, t.callers[e.c]);
    QuietAll(s, t, e.c, t.callers[e.c]);
  }

  lemma RepeatKeeps(cfg: Settings, s: State, e: Event, t: State)
    requires Inv(s) && Enabled(s, e) && e.Check? && s.callers[e.c].key in s.approvals && t == Step(cfg, s, e)
    ensures Inv(t)
  {
    RepeatAll(s, t, e.c, t.callers[e.c]);
  }

  lemma FirstKeeps(cfg: Settings, s: State, e: Event, t: State)
    requires Inv(s) && Enabled(s, e) && e.Check? && s.callers[e.c].key !in s.approvals && t == Step(cfg, s, e)
    ensures Inv(t)
  {
    CallAll(s, t, e.c, t.callers[e.c]);
  }

  /** An answer moves its caller on and changes nothing else. */
  lemma AdvanceMoves(cfg: Settings, s: State, e: Event, t: State)
    requires Enabled(s, e) && (e.Respond? || e.Annotated? || e.IncidentOpened?) && t == Step(cfg, s, e)
    ensures e.c in s.callers && e.c in t.callers && Moves(s, t, e.c, t.callers[e.c])
    ensures SameLocks(s, t) && SameHistory(s, t)
    ensures var p, q := s.callers[e.c], t.callers[e.c]; Unsaved(p) && Unsaved(q) && q.key == p.key && q.lock == p.lock
  {}

  lemma AdvanceKeeps(cfg: Settings, s: State, e: Event, t: State)
    requires Inv(s) && Enabled(s, e) && (e.Respond? || e.Annotated? || e.IncidentOpened?) && t == Step(cfg, s, e)
    ensures Inv(t)
  {
    AdvanceMoves(cfg, s, e, t);
    AdvanceAll(s, t, e.c, t.callers[e.c]);
  }

  lemma SaveKeeps(cfg: Settings, s: State, e: Event, t: State)
    requires Inv(s) && Enabled(s, e) && e.Save? && t == Step(cfg, s, e)
    ensures Inv(t)
  {
    SaveAll(s, t, e.c, t.callers[e.c]);
  }

  lemma AuditKeeps(cfg: Settings, s: State, e: Event, t: State)
    requires Inv(s) && Enabled(s, e) && e.Audit? && t == Step(cfg, s, e)
    ensures Inv(t)
  {
    ReleaseLocks(s, t, e.c, t.callers[e.c]);
    ReturnAll(s, t, e.c, t.callers[e.c]);
  }

  /** Every step of every caller keeps the invariant. */
  lemma StepKeeps(cfg: Settings, s: State, e: Event)
    requires Inv(s) && Enabled(s, e)
    ensures Inv(Step(cfg, s, e))
  {
    var t := Step(cfg, s, e);
    match e
    case Arrive(_, _, _) => ArriveKeeps(cfg, s, e, t);
    case Acquire(_) => AcquireKeeps(cfg, s, e, t);
    case Check(_) => if s.callers[e.c].key in s.approvals { RepeatKeeps(cfg, s, e, t); } else { FirstKeeps(cfg, s, e, t); }
    case Save(_) => SaveKeeps(cfg, s, e, t);
    case Audit(_) => AuditKeeps(cfg, s, e, t);
    case _ => AdvanceKeeps(cfg, s, e, t);
  }

  // ----- whole runs -----

  predicate Possible(cfg: Settings, s: State, events: seq<Event>)
    decreases |events|
  {
    events != [] ==> Enabled(s, events[0]) && Possible(cfg, Step(cfg, s, events[0]), events[1..])
  }

  function After(cfg: Settings, s: State, events: seq<Event>): State
    requires Possible(cfg, s, events)
    decreases |events|
  {
    if events == [] then s else After(cfg, Step(cfg, s, events[0]), events[1..])
  }

  lemma {:induction false} RunKeeps(cfg: Settings, s: State, events: seq<Event>)
    requires Inv(s) && Possible(cfg, s, events)
    ensures Inv(After(cfg, s, events))
    decreases |events|
  {
    if events != [] {
      StepKeeps(cfg, s, events[0]);
      RunKeeps(cfg, Step(cfg, s, events[0]), events[1..]);
    }
  }

  ghost predicate OncePerKey(s: State) {
    && (forall i, j :: 0 <= i < j < |s.posts| ==> s.posts[i] != s.posts[j])
    && (forall c, d | c in s.callers && d in s.callers && Executing(s.callers[c]) && Executing(s.callers[d]) ::
          s.callers[c].key == s.callers[d].key ==> c == d)
    && (forall i, j :: 0 <= i < j < |s.audit| ==> s.audit[i].key != s.audit[j].key)
  }

  /** A caller told the action was already applied got the result one other caller
      stored, and that caller had called the control plane. */
  ghost predicate RepeatsAgree(s: State) {
    forall c :: c in s.callers && s.callers[c].Done? && s.callers[c].answer.AlreadyApplied? ==>
      var k := s.callers[c].key;
      && k in s.approvals && k in s.posts && k in s.executor && s.executor[k] in s.callers && s.executor[k] != c
      && LeftRecord(s.callers[s.executor[k]], s.approvals[k])
      && s.approvals[k].result == s.callers[c].answer.result
  }

  lemma InvMeans(s: State)
    requires Inv(s)
    ensures OncePerKey(s) && RepeatsAgree(s)
  {}

  predicate Inside(s: State, c: Caller, d: Caller)
    requires c in s.callers && d in s.callers
  {
    Holds(s.callers[c]) && Holds(s.callers[d]) && s.callers[c].key == s.callers[d].key
  }

  /** In every interleaving distinct keys have distinct locks, and one caller at most is
      inside the section a key's lock guards. */
  lemma LocksStayApart(cfg: Settings, events: seq<Event>)
    requires Possible(cfg, Init, events)
    ensures var s := After(cfg, Init, events);
      && (forall k, l :: k in s.keyLocks && l in s.keyLocks && s.keyLocks[k] == s.keyLocks[l] ==> k == l)
      && forall c, d :: c in s.callers && d in s.callers && Inside(s, c, d) ==> c == d
  {
    RunKeeps(cfg, Init, events);
    var s := After(cfg, Init, events);
    forall c, d | c in s.callers && d in s.callers && Inside(s, c, d)
      ensures c == d
    {
      OneHolder(s, c, d);
    }
  }

  /** In every interleaving of any number of approvals: the control plane is called
      at most once per key, at most one caller per key returns the outcome itself,
      every other answer is the stored result, and no key is audited twice. */
  lemma AtMostOnce(cfg: Settings, events: seq<Event>)
    requires Possible(cfg, Init, events)
    ensures var s := After(cfg, Init, events); OncePerKey(s) && RepeatsAgree(s)
  {
    RunKeeps(cfg, Init, events);
    InvMeans(After(cfg, Init, events));
  }

  predicate Quiet(s: State) { forall c :: c in s.callers ==> s.callers[c].Done? }

  /** What one key has left behind once nobody is working on it. */
  ghost predicate Settled(s: State, k: string) {
    && k in s.posts && k in s.approvals && k in s.executor
    && s.executor[k] in s.callers && s.callers[s.executor[k]].Done?
    && s.callers[s.executor[k]].key == k
    && s.callers[s.executor[k]].answer == Applied(s.approvals[k].status, s.approvals[k].result)
    && s.approvals[k] in s.audit
    && forall c :: c in s.callers && s.callers[c].key == k && c != s.executor[k] ==>
         s.callers[c].Done? && s.callers[c].answer == AlreadyApplied(s.approvals[k].result)
  }

  lemma InvSettles(s: State, c: Caller)
    requires Inv(s) && Quiet(s) && c in s.callers
    ensures Settled(s, s.callers[c].key)
  {
    var k := s.callers[c].key;
    if s.callers[c].answer.Applied? { assert Executing(s.callers[c]); }
    assert k in s.executor;
    assert Returned(s, k);
    forall d | d in s.callers && s.callers[d].key == k && d != s.executor[k]
      ensures s.callers[d].answer.AlreadyApplied?
    {
      assert s.callers[d].answer.Applied? ==> Executing(s.callers[d]);
    }
  }

  /** Once every caller has returned, every key approved has exactly one executing
      caller, one stored record and one audit record, and everyone else was told so. */
  lemma QuietMeansSettled(cfg: Settings, events: seq<Event>)
    requires Possible(cfg, Init, events) && Quiet(After(cfg, Init, events))
    ensures var s := After(cfg, Init, events);
      forall c :: c in s.callers ==> Settled(s, s.callers[c].key)
  {
    RunKeeps(cfg, Init, events);
    var s := After(cfg, Init, events);
    forall c | c in s.callers
      ensures Settled(s, s.callers[c].key)
    {
      InvSettles(s, c);
    }
  }

  /** No deadlock: while a caller has not returned, someone can move. */
  lemma SomeoneCanMove(s: State, c: Caller)
    requires Inv(s) && c in s.callers && !s.callers[c].Done?
    ensures exists e: Event :: !e.Arrive? && Enabled(s, e)
  {
    var d := if s.callers[c].Waiting? && s.callers[c].lock in s.owner then s.owner[s.callers[c].lock] else c;
    match s.callers[d]
    case Waiting(_, _, _) => assert Enabled(s, Acquire(d));
    case Checking(_, _, _) => assert Enabled(s, Check(d));
    case Posting(_, _, _) => assert Enabled(s, Respond(d, None, ""));
    case Annotating(_, _, _, _) => assert Enabled(s, Annotated(d, ""));
    case OpeningIncident(_, _, _, _) => assert Enabled(s, IncidentOpened(d, ""));
    case Saving(_, _, _, _) => assert Enabled(s, Save(d));
    case Auditing(_, _, _, _) => assert Enabled(s, Audit(d));
  }

  /** Stored approvals and audit records are never changed or dropped. */
  lemma {:induction false} TrailOnlyGrows(cfg: Settings, s: State, events: seq<Event>)
    requires Inv(s) && Possible(cfg, s, events)
    ensures var t := After(cfg, s, events);
      && s.audit <= t.audit && s.posts <= t.posts
      && forall k :: k in s.approvals ==> k in t.approvals && t.approvals[k] == s.approvals[k]
    decreases |events|
  {
    if events != [] {
      var t := Step(cfg, s, events[0]);
      if events[0].Save? { SaveIsNew(s, events[0].c); }
      StepGrows(cfg, s, events[0]);
      StepKeeps(cfg, s, events[0]);
      TrailOnlyGrows(cfg, t, events[1..]);
    }
  }

  lemma SaveIsNew(s: State, c: Caller)
    requires PostsOk(s) && RecordsOk(s) && c in s.callers && s.callers[c].Saving?
    ensures s.callers[c].key !in s.approvals
  {}

  lemma StepGrows(cfg: Settings, s: State, e: Event)
    requires Enabled(s, e) && (e.Save? ==> s.callers[e.c].key !in s.approvals)
    ensures var t := Step(cfg, s, e);
      && s.audit <= t.audit && s.posts <= t.posts
      && forall k :: k in s.approvals ==> k in t.approvals && t.approvals[k] == s.approvals[k]
  {}
}
