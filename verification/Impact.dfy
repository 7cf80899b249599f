/** The impact engine: from failing workers through the production's relations to a
    projected delay. Instants are in minutes. */
module Impact {
  import opened Common

  datatype Job = Job(worker: string, shot: Option<string>)

  datatype Shot = Shot(scene: Option<string>, complete: bool, priority: int, deliverables: set<string>)

  /** Scenes lead to sequences; deliverables have deadlines. */
  datatype Production = Production(jobs: set<Job>, shots: map<string, Shot>, scenes: map<string, string>, deadlines: map<string, real>)

  // ----- the join -----

  predicate Traced(p: Production, shot: string) {
    shot in p.shots && p.shots[shot].scene.Some? && p.shots[shot].scene.value in p.scenes
  }

  function SequenceOf(p: Production, shot: string): string
    requires Traced(p, shot)
  {
    p.scenes[p.shots[shot].scene.value]
  }

  function AffectedSequences(p: Production, workers: set<string>): set<string> {
    set j | j in p.jobs && j.worker in workers && j.shot.Some? && Traced(p, j.shot.value) :: SequenceOf(p, j.shot.value)
  }

  /** Every unfinished shot of a sequence some failing worker was rendering. */
  function AffectedShots(p: Production, workers: set<string>): set<string> {
    set s | s in p.shots && Traced(p, s) && !p.shots[s].complete && SequenceOf(p, s) in AffectedSequences(p, workers)
  }

  function AtRisk(p: Production, shots: set<string>): set<string> {
    set s, d | s in shots && s in p.shots && d in p.shots[s].deliverables && d in p.deadlines :: d
  }

  ghost function Earliest(p: Production, ids: set<string>, asOf: real): (r: real)
    requires ids <= p.deadlines.Keys
    ensures ids == {} ==> r == asOf
    ensures ids != {} ==> (exists d :: d in ids && p.deadlines[d] == r) && forall d :: d in ids ==> r <= p.deadlines[d]
  {
    if ids == {} then asOf
    else
      var d :| d in ids;
      if ids == {d} then p.deadlines[d]
      else
        assert ids - {d} != {} && forall x :: x in ids ==> x == d || x in ids - {d};
        var rest := Earliest(p, ids - {d}, asOf);
        if p.deadlines[d] <= rest then p.deadlines[d] else rest
  }

  // ----- the projection -----

  datatype Projection = Projection(
    affectedShots: nat, highPriority: nat, deadline: real, completion: real, delay: nat,
    atRisk: set<string>, remediated: bool)

  function Max(a: real, b: real): real { if a >= b then a else b }

  function Needed(queue: int, observed: real): real { queue as real / Max(0.1, observed) }

  function Delay(asOf: real, deadline: real, queue: int, observed: real): nat {
    var late := (asOf + Needed(queue, observed) - deadline).Floor;
    if late > 0 then late else 0
  }

  ghost function Projected(p: Production, workers: set<string>, observed: real, baseline: real, queue: int, asOf: real): Projection {
    var shots := AffectedShots(p, workers);
    var risky := AtRisk(p, shots);
    var deadline := if risky != {} then Earliest(p, risky, asOf) else Earliest(p, p.deadlines.Keys, asOf);
    var behind := observed < baseline * 0.9;
    var atRisk := if behind then risky else {};
    var delay := Delay(asOf, deadline, queue, observed);
    var idle := atRisk == {} && shots == {};
    Projection(|shots|, |set s | s in shots && p.shots[s].priority >= 1|, deadline, asOf + Needed(queue, observed),
               if idle then 0 else delay, atRisk, idle || delay == 0 || observed >= baseline * 0.95)
  }

  // ----- what the join gives -----

  lemma SequencesOfUnion(p: Production, v: set<string>, w: set<string>)
    ensures AffectedSequences(p, v + w) == AffectedSequences(p, v) + AffectedSequences(p, w)
  {}

  lemma RiskOfUnion(p: Production, a: set<string>, b: set<string>)
    ensures AtRisk(p, a + b) == AtRisk(p, a) + AtRisk(p, b) && AtRisk(p, {}) == {}
  {}

  /** Failing workers can be examined one group at a time: what they affect and what is
      at risk with it. */
  lemma ShotsOfUnion(p: Production, v: set<string>, w: set<string>)
    ensures AffectedShots(p, v + w) == AffectedShots(p, v) + AffectedShots(p, w)
    ensures AtRisk(p, AffectedShots(p, v + w)) == AtRisk(p, AffectedShots(p, v)) + AtRisk(p, AffectedShots(p, w))
    ensures AffectedShots(p, {}) == {}
    ensures v <= w ==> AffectedShots(p, v) <= AffectedShots(p, w)
  {
    SequencesOfUnion(p, v, w);
    RiskOfUnion(p, AffectedShots(p, v), AffectedShots(p, w));
    if v <= w { assert v + w == w; }
  }

  /** The override to zero delay applies exactly when no shot is affected. */
  lemma OverrideExactlyWithoutShots(p: Production, workers: set<string>, observed: real, baseline: real, queue: int, asOf: real)
    ensures var r := Projected(p, workers, observed, baseline, queue, asOf);
      var delay := Delay(asOf, r.deadline, queue, observed);
      && (AffectedShots(p, workers) == {} ==> r.delay == 0 && r.remediated && r.atRisk == {} && r.affectedShots == 0)
      && (AffectedShots(p, workers) != {} ==>
            r.delay == delay && r.affectedShots > 0 && (r.remediated <==> delay == 0 || observed >= baseline * 0.95))
  {
    var shots := AffectedShots(p, workers);
    if shots != {} { var s :| s in shots; assert |shots| > 0; }
  }

  // ----- what the delay means -----

  /** Whole minutes, never more than the exact lateness and less than one below it. */
  lemma DelayIsTheLateness(asOf: real, deadline: real, queue: int, observed: real)
    ensures var late := asOf + Needed(queue, observed) - deadline;
      var d := Delay(asOf, deadline, queue, observed);
      && (late >= 0.0 ==> d as real <= late < d as real + 1.0) && (late < 1.0 <==> d == 0)
  {}

  lemma FloorKeepsOrder(x: real, y: real)
    requires x <= y
    ensures x.Floor <= y.Floor
  {
    assert x.Floor as real <= x <= y < (y.Floor + 1) as real;
  }

  lemma QuotientGrows(a: real, b: real, c: real)
    requires a <= b && c > 0.0
    ensures a / c <= b / c
  {
    assert (b - a) / c >= 0.0;
  }

  lemma QuotientFalls(a: real, c: real, d: real)
    requires a >= 0.0 && 0.0 < c <= d
    ensures a / d <= a / c
  {
    var q, r := a / c, a / d;
    assert q * c == a && r * d == a;
    assert q >= 0.0 && q * (d - c) >= 0.0;
    assert (q - r) * d >= 0.0;
  }

  /** More queue means no less delay; more throughput or a later deadline, no more. */
  lemma DelayIsMonotone(asOf: real, deadline: real, queue: nat, observed: real, later: real, more: nat, faster: real)
    requires queue <= more && observed <= faster && deadline <= later
    ensures Delay(asOf, deadline, queue, observed) <= Delay(asOf, deadline, more, observed)
    ensures Delay(asOf, deadline, queue, faster) <= Delay(asOf, deadline, queue, observed)
    ensures Delay(asOf, later, queue, observed) <= Delay(asOf, deadline, queue, observed)
  {
    var safe := Max(0.1, observed);
    QuotientGrows(queue as real, more as real, safe);
    QuotientFalls(queue as real, safe, Max(0.1, faster));
    var here := asOf + Needed(queue, observed) - deadline;
    FloorKeepsOrder(here, asOf + Needed(more, observed) - deadline);
    FloorKeepsOrder(asOf + Needed(queue, faster) - deadline, here);
    FloorKeepsOrder(asOf + Needed(queue, observed) - later, here);
  }
}
