/** The execution engine and its audit store as one object. Each method is the
    code between two awaits; what other callers do happens between the calls. Its
    effect is the machine's step, so `Remediation.StepKeeps` and the run lemmas
    speak about this object. */
module RemediationEngine {
  import opened Common
  import opened Remediation

  class ActionEngine {
    const cfg: Settings
    var keyLocks: map<string, LockId>
    var nextLock: LockId
    var owner: map<LockId, Caller>
    var callers: map<Caller, Phase>
    var approvals: map<string, Record>
    var audit: seq<Record>
    ghost var posts: seq<string>
    ghost var executor: map<string, Caller>

    ghost function View(): State
      reads this
    {
      State(keyLocks, nextLock, owner, callers, approvals, audit, posts, executor)
    }

    constructor (cfg: Settings)
      ensures this.cfg == cfg && View() == Init && Inv(View())
    {
      this.cfg := cfg;
      keyLocks, nextLock, owner, callers := map[], 0, map[], map[];
      approvals, audit, posts, executor := map[], [], [], map[];
    }

    /** The lock guarding one key, created once. */
    method LockFor(key: string) returns (lock: LockId)
      modifies this`keyLocks, this`nextLock
      ensures key in keyLocks && keyLocks[key] == lock
      ensures key in old(keyLocks) ==> keyLocks == old(keyLocks) && nextLock == old(nextLock)
      ensures key !in old(keyLocks) ==>
        lock == old(nextLock) && keyLocks == old(keyLocks)[key := lock] && nextLock == old(nextLock) + 1
    {
      if key in keyLocks {
        lock := keyLocks[key];
      } else {
        lock := nextLock;
        keyLocks := keyLocks[key := lock];
        nextLock := nextLock + 1;
      }
    }

    method Arrive(c: Caller, key: string, atRisk: bool)
      requires c !in callers
      modifies this
      ensures View() == Step(cfg, old(View()), Event.Arrive(c, key, atRisk))
    {
      var lock := LockFor(key);
      callers := callers[c := Waiting(key, atRisk, lock)];
    }

    method Acquire(c: Caller)
      requires Enabled(View(), Event.Acquire(c))
      modifies this
      ensures View() == Step(cfg, old(View()), Event.Acquire(c))
    {
      var p := callers[c];
      owner := owner[p.lock := c];
      callers := callers[c := Checking(p.key, p.atRisk, p.lock)];
    }

    /** Looks the key up and, when it is new, issues the control-plane call before
        the next await. */
    method Check(c: Caller)
      requires Enabled(View(), Event.Check(c))
      modifies this
      ensures View() == Step(cfg, old(View()), Event.Check(c))
    {
      var p := callers[c];
      if p.key in approvals {
        callers := callers[c := Done(p.key, AlreadyApplied(approvals[p.key].result))];
        owner := owner - {p.lock};
      } else {
        callers := callers[c := Posting(p.key, p.atRisk, p.lock)];
        posts := posts + [p.key];
        executor := executor[p.key := c];
      }
    }

    /** The control plane answered, or the call failed. */
    method Respond(c: Caller, reply: Option<string>, error: string)
      requires Enabled(View(), Event.Respond(c, reply, error))
      modifies this
      ensures View() == Step(cfg, old(View()), Event.Respond(c, reply, error))
    {
      var p := callers[c];
      match reply {
        case None => callers := callers[c := Saving(p.key, p.lock, FAILED, Result(error, None, None))];
        case Some(body) =>
          if cfg.writeback {
            callers := callers[c := Annotating(p.key, p.atRisk, p.lock, Result(body, None, None))];
          } else {
            callers := callers[c := Saving(p.key, p.lock, SUCCESS, Result(body, None, None))];
          }
      }
    }

    method Annotated(c: Caller, note: string)
      requires Enabled(View(), Event.Annotated(c, note))
      modifies this
      ensures View() == Step(cfg, old(View()), Event.Annotated(c, note))
    {
      var p := callers[c];
      var result := p.result.(annotation := Some(note));
      if p.atRisk && cfg.incidents {
        callers := callers[c := OpeningIncident(p.key, p.atRisk, p.lock, result)];
      } else {
        callers := callers[c := Saving(p.key, p.lock, SUCCESS, result)];
      }
    }

    method IncidentOpened(c: Caller, note: string)
      requires Enabled(View(), Event.IncidentOpened(c, note))
      modifies this
      ensures View() == Step(cfg, old(View()), Event.IncidentOpened(c, note))
    {
      var p := callers[c];
      callers := callers[c := Saving(p.key, p.lock, SUCCESS, p.result.(incident := Some(note)))];
    }

    method SaveApproval(c: Caller)
      requires Enabled(View(), Event.Save(c))
      modifies this
      ensures View() == Step(cfg, old(View()), Event.Save(c))
    {
      var p := callers[c];
      approvals := approvals[p.key := Record(p.key, p.status, p.result)];
      callers := callers[c := Auditing(p.key, p.lock, p.status, p.result)];
    }

    method RecordAudit(c: Caller)
      requires Enabled(View(), Event.Audit(c))
      modifies this
      ensures View() == Step(cfg, old(View()), Event.Audit(c))
    {
      var p := callers[c];
      audit := audit + [Record(p.key, p.status, p.result)];
      callers := callers[c := Done(p.key, Applied(p.status, p.result))];
      owner := owner - {p.lock};
    }
  }
}
