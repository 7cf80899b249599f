/** The simulated render farm, and the promise that joins it to the detector: in every
    reachable state the workers it marks degraded are the ones the detector finds. */
module Simulator {
  import opened Common
  import opened Numbering
  import opened Degradation

  datatype Gpu = Rtx4090 | A100 | Rtx3080

  datatype Worker = Worker(gpu: Gpu, seconds: real, degraded: bool, drained: bool)

  type Farm = map<string, Worker>

  /** One random draw per worker, in [-1, 1]; an operation scales it. */
  type Draws = string -> real

  ghost predicate Fair(u: Draws) { forall w :: -1.0 <= u(w) <= 1.0 }

  /** No draw at either end of its range. */
  ghost predicate Strict(u: Draws) { forall w :: -1.0 < u(w) < 1.0 }

  function Baseline(g: Gpu): real {
    match g
    case Rtx4090 => 22.0
    case A100 => 24.0
    case Rtx3080 => 42.0
  }

  function Name(n: nat): string { "w-" + TwoDigits(n) }

  function Max(a: real, b: real): real { if a >= b then a else b }

  // ----- the operations -----

  function GpuOf(i: nat): Gpu {
    if i % 3 == 1 then Rtx4090 else if i % 3 == 2 then A100 else Rtx3080
  }

  /** Workers 1 to `n`, models in turn. */
  function Initial(n: nat, u: Draws): Farm {
    if n == 0 then map[]
    else Initial(n - 1, u)[Name(n) := Worker(GpuOf(n), Baseline(GpuOf(n)) + u(Name(n)), false, false)]
  }

  function Triggered(f: Farm, ids: set<string>, u: Draws): Farm {
    map w | w in f :: if w in ids then f[w].(degraded := true, seconds := 145.0 + 5.0 * u(w)) else f[w]
  }

  function TickedWorker(x: Worker, draw: real): Worker {
    if x.drained then x
    else if x.degraded then x.(seconds := Max(120.0, 145.0 + 8.0 * draw))
    else x.(seconds := Max(18.0, Baseline(x.gpu) + 2.0 * draw))
  }

  function Ticked(f: Farm, u: Draws): Farm { map w | w in f :: TickedWorker(f[w], u(w)) }

  function RolledBack(f: Farm, u: Draws): Farm {
    map w | w in f :: f[w].(degraded := false, seconds := Baseline(f[w].gpu) + u(w))
  }

  function Drained(f: Farm, id: string): Farm { if id in f then f[id := f[id].(drained := true)] else f }

  /** The highest number an id ends in. */
  ghost function Highest(f: Farm): nat {
    MaxOf(set w | w in f :: NumberOf(w))
  }

  ghost function MaxOf(s: set<nat>): (m: nat)
    ensures (s == {} ==> m == 0) && (s != {} ==> m in s) && forall x :: x in s ==> x <= m
  {
    if s == {} then 0
    else
      var x :| x in s;
      var rest := MaxOf(s - {x});
      assert forall y :: y in s ==> y == x || y in s - {x};
      if x >= rest then x else rest
  }

  function Added(f: Farm, from: nat, k: nat): Farm {
    if k == 0 then f else Added(f, from, k - 1)[Name(from + k) := Worker(Rtx4090, 22.0, false, false)]
  }

  ghost function Scaled(f: Farm, k: nat): Farm { Added(f, Highest(f), k) }

  datatype Op =
    | Trigger(ids: set<string>, u: Draws)
    | Tick(u: Draws)
    | Rollback(u: Draws)
    | Drain(id: string)
    | Scale(k: nat)

  ghost predicate OpFair(op: Op) {
    match op
    case Trigger(_, u) => Fair(u)
    case Tick(u) => Fair(u)
    case Rollback(u) => Fair(u)
    case _ => true
  }

  ghost predicate OpStrict(op: Op) { OpFair(op) && (op.Tick? ==> Strict(op.u)) }

  ghost function Step(f: Farm, op: Op): Farm {
    match op
    case Trigger(ids, u) => Triggered(f, ids, u)
    case Tick(u) => Ticked(f, u)
    case Rollback(u) => RolledBack(f, u)
    case Drain(id) => Drained(f, id)
    case Scale(k) => Scaled(f, k)
  }

  // ----- what every operation keeps -----

  predicate Inside(lo: real, x: real, hi: real, strict: bool) { if strict then lo < x < hi else lo <= x <= hi }

  predicate WorkerOk(x: Worker, strict: bool) {
    if x.degraded then 137.0 <= x.seconds <= 153.0
    else Inside(Baseline(x.gpu) - 2.0, x.seconds, Baseline(x.gpu) + 2.0, strict)
  }

  ghost predicate HasModel(f: Farm, g: Gpu) { exists w :: w in f && f[w].gpu == g }

  ghost predicate FarmOk(f: Farm, strict: bool) {
    && (forall w :: w in f ==> WorkerOk(f[w], strict))
    && (HasModel(f, Rtx3080) ==> HasModel(f, A100))
  }

  lemma {:induction false} AddKeeps(f: Farm, n: nat, x: Worker, strict: bool)
    requires FarmOk(f, strict) && WorkerOk(x, strict) && Name(n) !in f && (x.gpu.Rtx3080? ==> HasModel(f, A100))
    ensures FarmOk(f[Name(n) := x], strict)
  {
    var g := f[Name(n) := x];
    if HasModel(g, Rtx3080) {
      var w :| w in g && g[w].gpu == Rtx3080;
      assert w != Name(n) ==> HasModel(f, Rtx3080);
      var v :| v in f && f[v].gpu == A100;
      assert v in g && g[v].gpu == A100;
    }
  }

  lemma {:induction false} InitialKeys(n: nat, u: Draws, m: nat)
    ensures Name(m) in Initial(n, u) <==> 1 <= m <= n
    ensures 1 <= m <= n ==> Initial(n, u)[Name(m)].gpu == GpuOf(m)
  {
    if n > 0 {
      InitialKeys(n - 1, u, m);
      if m != n { NamesDiffer(m, n); }
    }
  }

  lemma InitialA100(m: nat, u: Draws)
    requires m % 3 == 2
    ensures HasModel(Initial(m, u), A100)
  {
    InitialKeys(m, u, m);
    var f := Initial(m, u);
    assert Name(m) in f && f[Name(m)].gpu == A100;
  }

  lemma {:induction false} InitialKeeps(n: nat, u: Draws)
    requires Fair(u)
    ensures FarmOk(Initial(n, u), true)
  {
    if n > 0 {
      InitialKeeps(n - 1, u);
      InitialKeys(n - 1, u, n);
      if n % 3 == 0 { InitialA100(n - 1, u); }
      AddKeeps(Initial(n - 1, u), n, Worker(GpuOf(n), Baseline(GpuOf(n)) + u(Name(n)), false, false), true);
    }
  }

  lemma NameNumber(n: nat)
    ensures NumberOf(Name(n)) == n
  {
    assert Name(n) == "w" + "-" + TwoDigits(n);
    SuffixOf("w", TwoDigits(n));
    TwoDigitsValue(n);
  }

  lemma NamesDiffer(m: nat, n: nat)
    requires m != n
    ensures Name(m) != Name(n)
  {
    if Name(m) == Name(n) { NumbersApart("w-", m, n); }
  }

  /** A new number is above every number in use, so no worker is overwritten. */
  lemma FreshName(f: Farm, n: nat)
    requires n > Highest(f)
    ensures Name(n) !in f
  {
    NameNumber(n);
    var numbers := set w | w in f :: NumberOf(w);
    assert n !in numbers;
  }

  ghost predicate NoneAbove(f: Farm, from: nat) { forall n: nat :: n > from ==> Name(n) !in f }

  lemma HighestIsLast(f: Farm)
    ensures NoneAbove(f, Highest(f))
  {
    forall n: nat | n > Highest(f) ensures Name(n) !in f { FreshName(f, n); }
  }

  lemma {:induction false} AddedNames(f: Farm, from: nat, k: nat, n: nat)
    requires n > from + k && NoneAbove(f, from)
    ensures Name(n) !in Added(f, from, k)
  {
    if k > 0 {
      AddedNames(f, from, k - 1, n);
      NamesDiffer(n, from + k);
    }
  }

  lemma OneMore(f: Farm, w: string, x: Worker)
    requires w !in f
    ensures |f[w := x]| == |f| + 1
  {
    assert f[w := x].Keys == f.Keys + {w};
  }

  lemma {:induction false} AddedSize(f: Farm, from: nat, k: nat)
    requires NoneAbove(f, from)
    ensures |Added(f, from, k)| == |f| + k
  {
    if k > 0 {
      AddedSize(f, from, k - 1);
      AddedNames(f, from, k - 1, from + k);
      OneMore(Added(f, from, k - 1), Name(from + k), Worker(Rtx4090, 22.0, false, false));
    }
  }

  lemma {:induction false} AddedTouchesNone(f: Farm, from: nat, k: nat, w: string)
    requires NoneAbove(f, from) && w in f
    ensures w in Added(f, from, k) && Added(f, from, k)[w] == f[w]
  {
    if k > 0 {
      AddedTouchesNone(f, from, k - 1, w);
    }
  }

  lemma {:induction false} AddedKeeps(f: Farm, from: nat, k: nat, strict: bool)
    requires FarmOk(f, strict) && NoneAbove(f, from)
    ensures FarmOk(Added(f, from, k), strict)
  {
    if k > 0 {
      AddedKeeps(f, from, k - 1, strict);
      AddedNames(f, from, k - 1, from + k);
      AddKeeps(Added(f, from, k - 1), from + k, Worker(Rtx4090, 22.0, false, false), strict);
    }
  }

  /** Scaling adds exactly `k` workers and touches none that is there. */
  lemma ScaleAddsOnly(f: Farm, k: nat)
    ensures var g := Scaled(f, k); |g| == |f| + k && forall w :: w in f ==> w in g && g[w] == f[w]
  {
    HighestIsLast(f);
    AddedSize(f, Highest(f), k);
    forall w | w in f ensures w in Scaled(f, k) && Scaled(f, k)[w] == f[w] { AddedTouchesNone(f, Highest(f), k, w); }
  }

  lemma SameModels(f: Farm, g: Farm, gpu: Gpu)
    requires f.Keys == g.Keys && forall w :: w in f ==> f[w].gpu == g[w].gpu
    ensures HasModel(f, gpu) <==> HasModel(g, gpu)
  {
    if w :| w in f && f[w].gpu == gpu { assert g[w].gpu == gpu; }
    if w :| w in g && g[w].gpu == gpu { assert f[w].gpu == gpu; }
  }

  lemma StepKeeps(f: Farm, op: Op, strict: bool)
    requires FarmOk(f, strict) && OpFair(op) && (strict ==> OpStrict(op))
    ensures FarmOk(Step(f, op), strict)
  {
    if op.Scale? {
      HighestIsLast(f);
      AddedKeeps(f, Highest(f), op.k, strict);
    } else {
      var g := Step(f, op);
      SameModels(f, g, A100);
      SameModels(f, g, Rtx3080);
    }
  }

  /** The farms a run goes through. */
  ghost predicate IsRun(farms: seq<Farm>, ops: seq<Op>, n: nat, u: Draws) {
    && |farms| == |ops| + 1 && Fair(u) && farms[0] == Initial(n, u)
    && forall i {:trigger ops[i]} :: 0 <= i < |ops| ==> OpFair(ops[i]) && farms[i + 1] == Step(farms[i], ops[i])
  }

  lemma {:induction false} RunKeeps(farms: seq<Farm>, ops: seq<Op>, n: nat, u: Draws, i: nat, strict: bool)
    requires IsRun(farms, ops, n, u) && i < |farms| && (strict ==> forall j :: 0 <= j < |ops| ==> OpStrict(ops[j]))
    ensures FarmOk(farms[i], strict)
  {
    if i == 0 {
      InitialKeeps(n, u);
    } else {
      RunKeeps(farms, ops, n, u, i - 1, strict);
      assert farms[i - 1 + 1] == Step(farms[i - 1], ops[i - 1]);
      StepKeeps(farms[i - 1], ops[i - 1], strict);
    }
  }

  // ----- the detector on a farm -----

  function Durations(f: Farm): Fleet { map w | w in f :: f[w].seconds }

  function Marked(f: Farm): set<string> { set w | w in f && f[w].degraded }

  /** Every 3080 as slow, and every other worker as fast, as a draw at the end of its
      range can make them. */
  ghost predicate OnTheEdge(f: Farm) {
    HasModel(f, Rtx3080) && forall w :: w in f ==> if f[w].gpu.Rtx3080? then f[w].seconds == 44.0 else f[w].seconds <= 22.0
  }

  lemma SomeDegraded(f: Farm)
    requires FarmOk(f, false) && Marked(f) != {} && Marked(f) != f.Keys
    ensures SplitOf(Durations(f)) == Split(f.Keys - Marked(f), Marked(f))
  {
    var fleet := Durations(f);
    assert fleet.Keys == f.Keys;
    assert !(f.Keys <= Marked(f));
    var w :| w in f.Keys && w !in Marked(f);
    assert w in fleet.Keys - Marked(f);
    TwoGroupsRecognised(fleet, Marked(f), 20.0, 44.0, 137.0, 153.0);
  }

  lemma AllDegraded(f: Farm)
    requires FarmOk(f, false) && Marked(f) == f.Keys
    ensures SplitOf(Durations(f)) == Split(f.Keys, {})
  {
    forall w | w in f ensures f[w].degraded { assert w in Marked(f); }
    OneBandIsHealthy(Durations(f), 137.0, 153.0);
  }

  /** A gap wide enough to be a cut, in a farm with nothing degraded, lies between 22 and 44. */
  lemma HealthyGap(f: Farm, a: real, b: real)
    requires FarmOk(f, false) && Marked(f) == {} && Gap(Durations(f), a, b) && Ratio(a, b) >= FACTOR
    ensures a == 22.0 && b == 44.0 && OnTheEdge(f)
  {
    var fleet := Durations(f);
    RatioMeans(a, b, FACTOR);
    forall w | w in f ensures !f[w].degraded { assert w !in Marked(f); }
    var v :| v in fleet && fleet[v] == a;
    var w :| w in fleet && fleet[w] == b;
    assert f[w].gpu.Rtx3080? && HasModel(f, Rtx3080);
    var c :| c in f && f[c].gpu == A100;
    assert fleet[c] in fleet.Values;
    forall x | x in f ensures if f[x].gpu.Rtx3080? then f[x].seconds == 44.0 else f[x].seconds <= 22.0 { assert fleet[x] in fleet.Values; }
  }

  /** Right on the edge the detector takes a healthy farm's 3080s for degraded workers. */
  lemma EdgeMisreads(f: Farm)
    requires FarmOk(f, false) && Marked(f) == {} && OnTheEdge(f)
    ensures IsCut(Durations(f), 22.0, 44.0)
  {
    var fleet := Durations(f);
    forall w | w in f ensures !f[w].degraded { assert w !in Marked(f); }
    var v :| v in f && f[v].gpu == Rtx3080;
    var c :| c in f && f[c].gpu == A100;
    assert fleet[v] == 44.0 && fleet[c] == 22.0;
    assert Gap(fleet, 22.0, 44.0);
    forall a, b | Gap(fleet, a, b)
      ensures Ratio(a, b) <= Ratio(22.0, 44.0) && (Ratio(a, b) == Ratio(22.0, 44.0) ==> 22.0 <= a)
    {
      if Ratio(a, b) >= FACTOR { HealthyGap(f, a, b); }
    }
  }

  /** With nothing degraded the detector finds nothing exactly when the farm is not on the edge. */
  lemma NoneDegraded(f: Farm)
    requires FarmOk(f, false) && Marked(f) == {}
    ensures SplitOf(Durations(f)) == Split(f.Keys, {}) <==> !OnTheEdge(f)
  {
    var fleet := Durations(f);
    if OnTheEdge(f) {
      EdgeMisreads(f);
      CutSplits(fleet, 22.0, 44.0);
      var v :| v in f && f[v].gpu == Rtx3080;
      assert v in SplitOf(fleet).degraded;
    } else {
      forall a, b ensures !IsCut(fleet, a, b) { if IsCut(fleet, a, b) { HealthyGap(f, a, b); } }
      NoCutNoSplit(fleet);
    }
  }

  /** In every reachable state, with any draws: the detector returns exactly the marked
      workers when there are some but not all, and none when all are marked. */
  lemma DetectorMatchesMarks(farms: seq<Farm>, ops: seq<Op>, n: nat, u: Draws, i: nat)
    requires IsRun(farms, ops, n, u) && i < |farms|
    ensures var f := farms[i];
      && (Marked(f) != {} && Marked(f) != f.Keys ==> SplitOf(Durations(f)) == Split(f.Keys - Marked(f), Marked(f)))
      && (Marked(f) == f.Keys ==> SplitOf(Durations(f)) == Split(f.Keys, {}))
      && (Marked(f) == {} ==> (SplitOf(Durations(f)).degraded == {} <==> !OnTheEdge(f)))
  {
    var f := farms[i];
    RunKeeps(farms, ops, n, u, i, false);
    if Marked(f) == f.Keys { AllDegraded(f); }
    else if Marked(f) != {} { SomeDegraded(f); }
    if Marked(f) == {} { NoneDegraded(f); DegradedAreTwiceAsSlow(Durations(f)); }
  }

  /** When no tick draws an end of its range, nothing marked means nothing found. */
  lemma StrictDrawsNeverMisread(farms: seq<Farm>, ops: seq<Op>, n: nat, u: Draws, i: nat)
    requires IsRun(farms, ops, n, u) && i < |farms| && forall j :: 0 <= j < |ops| ==> OpStrict(ops[j])
    requires Marked(farms[i]) == {}
    ensures SplitOf(Durations(farms[i])) == Split(farms[i].Keys, {})
  {
    var f := farms[i];
    RunKeeps(farms, ops, n, u, i, true);
    RunKeeps(farms, ops, n, u, i, false);
    StrictIsOffTheEdge(f);
    NoneDegraded(f);
  }

  lemma RolledBackOk(f: Farm, u: Draws)
    requires FarmOk(f, false) && Fair(u)
    ensures FarmOk(RolledBack(f, u), true) && Marked(RolledBack(f, u)) == {}
  {
    var g := RolledBack(f, u);
    SameModels(f, g, A100);
    SameModels(f, g, Rtx3080);
  }

  lemma StaysUnmarked(f: Farm, op: Op)
    requires Marked(f) == {} && !op.Trigger?
    ensures Marked(Step(f, op)) == {}
  {
    forall w | w in f ensures !f[w].degraded { assert w !in Marked(f); }
    if op.Scale? { AddedUnmarked(f, Highest(f), op.k); }
  }

  lemma {:induction false} AddedUnmarked(f: Farm, from: nat, k: nat)
    requires forall w :: w in f ==> !f[w].degraded
    ensures forall w :: w in Added(f, from, k) ==> !Added(f, from, k)[w].degraded
  {
    if k > 0 { AddedUnmarked(f, from, k - 1); }
  }

  /** Nothing is triggered from `from` on. */
  ghost predicate Calm(ops: seq<Op>, from: nat, to: nat, strict: bool)
    requires to <= |ops|
  {
    forall j {:trigger ops[j]} :: from <= j < to ==> !ops[j].Trigger? && (strict ==> OpStrict(ops[j]))
  }

  /** After a rollback nothing is marked until the next incident, and strict draws keep
      every worker strictly inside its model's band. */
  lemma {:induction false} CalmAfterRollback(farms: seq<Farm>, ops: seq<Op>, n: nat, u: Draws, i: nat, m: nat, strict: bool)
    requires IsRun(farms, ops, n, u) && i < m <= |ops| && ops[i].Rollback? && Calm(ops, i + 1, m, strict)
    ensures Marked(farms[m]) == {} && FarmOk(farms[m], strict)
    decreases m
  {
    var before, op := farms[m - 1], ops[m - 1];
    assert farms[m - 1 + 1] == Step(before, op) && OpFair(op);
    if m == i + 1 {
      RunKeeps(farms, ops, n, u, i, false);
      RolledBackOk(before, op.u);
      Relax(farms[m], strict);
    } else {
      CalmAfterRollback(farms, ops, n, u, i, m - 1, strict);
      StaysUnmarked(before, op);
      StepKeeps(before, op, strict);
    }
  }

  lemma Relax(f: Farm, strict: bool)
    requires FarmOk(f, true)
    ensures FarmOk(f, strict)
  {
    forall w | w in f ensures WorkerOk(f[w], strict) { assert WorkerOk(f[w], true); }
  }

  lemma StrictIsOffTheEdge(f: Farm)
    requires FarmOk(f, true) && Marked(f) == {}
    ensures !OnTheEdge(f)
  {
    forall v | v in f && f[v].gpu.Rtx3080? ensures f[v].seconds < 44.0 { assert v !in Marked(f) && WorkerOk(f[v], true); }
  }

  lemma {:induction false} InitialWorkers(n: nat, u: Draws, w: string) returns (m: nat)
    requires w in Initial(n, u)
    ensures 1 <= m <= n && w == Name(m) && Initial(n, u)[w] == Worker(GpuOf(m), Baseline(GpuOf(m)) + u(w), false, false)
  {
    if w == Name(n) { m := n; } else { m := InitialWorkers(n - 1, u, w); }
  }

  /** The slowest 3080 and the fastest of the others, after one tick of a new farm. */
  function EdgeDraws(): Draws { w => if w == Name(3) then 1.0 else -1.0 }

  /** The edge can be reached: one tick whose draws lie at the ends of their ranges. */
  lemma EdgeIsReachable(u: Draws)
    requires Fair(u)
    ensures var f := Ticked(Initial(3, u), EdgeDraws());
      && IsRun([Initial(3, u), f], [Tick(EdgeDraws())], 3, u) && Marked(f) == {} && OnTheEdge(f)
  {
    var start := Initial(3, u);
    var f := Ticked(start, EdgeDraws());
    assert Step(start, Tick(EdgeDraws())) == f;
    forall w | w in f
      ensures !f[w].degraded && if f[w].gpu.Rtx3080? then f[w].seconds == 44.0 else f[w].seconds <= 22.0
    {
      var m := InitialWorkers(3, u, w);
      assert m == 1 || m == 2 || m == 3;
      NameNumber(m);
      NameNumber(3);
    }
    InitialKeys(3, u, 3);
    assert f[Name(3)].gpu == Rtx3080;
  }
}
