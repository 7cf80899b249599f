/** One tenant's world, updated in place by the control plane. */
module RenderWorld {
  import opened Common
  import opened Numbering
  import opened Simulator

  datatype Outcome = Applied | Failed

  class TenantProductionWorld {
    var workers: Farm
    var active: bool
    var priority: seq<string>

    constructor (count: nat, u: Draws)
      ensures workers == Initial(count, u) && !active && priority == []
    {
      active, priority := false, [];
      var made: Farm := map[];
      for i := 1 to count + 1
        invariant made == Initial(i - 1, u)
      {
        var gpu := GpuOf(i);
        made := made[Name(i) := Worker(gpu, Baseline(gpu) + u(Name(i)), false, false)];
      }
      workers := made;
    }

    /** Ids that name no worker are ignored. */
    method TriggerIncident(ids: seq<string>, u: Draws)
      modifies this
      ensures workers == Step(old(workers), Trigger((set id | id in ids), u)) && active && priority == old(priority)
    {
      active := true;
      var i := 0;
      while i < |ids|
        invariant 0 <= i <= |ids| && workers == Triggered(old(workers), (set id | id in ids[..i]), u)
        invariant active && priority == old(priority)
      {
        var id := ids[i];
        assert ids[..i + 1] == ids[..i] + [id];
        if id in workers {
          workers := workers[id := workers[id].(degraded := true, seconds := 145.0 + 5.0 * u(id))];
        }
        i := i + 1;
      }
      assert ids[..|ids|] == ids;
    }

    method RollbackRenderer(u: Draws)
      modifies this
      ensures workers == Step(old(workers), Rollback(u)) && !active && priority == old(priority)
    {
      active := false;
      var left := workers.Keys;
      while left != {}
        invariant left <= workers.Keys == old(workers).Keys
        invariant forall w :: w in workers ==> workers[w] == if w in left then old(workers)[w] else RolledBack(old(workers), u)[w]
        invariant !active && priority == old(priority)
        decreases |left|
      {
        var w :| w in left;
        workers := workers[w := workers[w].(degraded := false, seconds := Baseline(workers[w].gpu) + u(w))];
        left := left - {w};
      }
    }

    method TickOnce(u: Draws)
      modifies this
      ensures workers == Step(old(workers), Tick(u)) && active == old(active) && priority == old(priority)
    {
      var left := workers.Keys;
      while left != {}
        invariant left <= workers.Keys == old(workers).Keys
        invariant forall w :: w in workers ==> workers[w] == if w in left then old(workers)[w] else Ticked(old(workers), u)[w]
        invariant active == old(active) && priority == old(priority)
        decreases |left|
      {
        var w :| w in left;
        var x := workers[w];
        if !x.drained {
          var next := if x.degraded then Max(120.0, 145.0 + 8.0 * u(w)) else Max(18.0, Baseline(x.gpu) + 2.0 * u(w));
          workers := workers[w := x.(seconds := next)];
        }
        left := left - {w};
      }
    }

    method DrainWorker(id: string) returns (r: Outcome)
      modifies this
      ensures workers == Step(old(workers), Drain(id)) && active == old(active) && priority == old(priority)
      ensures r == if id in old(workers) then Applied else Failed
    {
      if id in workers {
        workers := workers[id := workers[id].(drained := true)];
        r := Applied;
      } else {
        r := Failed;
      }
    }

    method FindHighest() returns (highest: nat)
      ensures highest == Highest(workers)
    {
      highest := 0;
      var left := workers.Keys;
      while left != {}
        invariant left <= workers.Keys
        invariant highest == 0 || exists w :: w in workers && NumberOf(w) == highest
        invariant forall w :: w in workers && w !in left ==> NumberOf(w) <= highest
        decreases |left|
      {
        var w :| w in left;
        if NumberOf(w) > highest { highest := NumberOf(w); }
        left := left - {w};
      }
      HighestIs(workers, highest);
    }

    /** Numbers new workers from the highest number in use. */
    method ScaleWorkers(count: nat)
      modifies this
      ensures workers == Step(old(workers), Scale(count)) && active == old(active) && priority == old(priority)
    {
      var highest := FindHighest();
      var grown := workers;
      for i := 1 to count + 1
        invariant grown == Added(workers, highest, i - 1)
      {
        grown := grown[Name(highest + i) := Worker(Rtx4090, 22.0, false, false)];
      }
      workers := grown;
    }

    /** Reordering the queue changes no worker. */
    method ReprioritizeQueue(sequences: seq<string>) returns (r: Outcome)
      modifies this
      ensures workers == old(workers) && active == old(active)
      ensures if sequences == [] then r == Failed && priority == old(priority) else r == Applied && priority == sequences
    {
      if sequences == [] { return Failed; }
      priority := sequences;
      r := Applied;
    }
  }

  lemma HighestIs(f: Farm, h: nat)
    requires h == 0 || exists w :: w in f && NumberOf(w) == h
    requires forall w :: w in f ==> NumberOf(w) <= h
    ensures h == Highest(f)
  {
    var numbers := set w | w in f :: NumberOf(w);
    if h != 0 {
      var w :| w in f && NumberOf(w) == h;
      assert h in numbers;
    }
    if numbers != {} {
      var w :| w in f && NumberOf(w) == MaxOf(numbers);
    }
  }
}
