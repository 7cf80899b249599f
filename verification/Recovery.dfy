/** What an investigation decides, what a verification concludes, and that the two agree
    on the same readings, up to the simulated farm they read. */
module Recovery {
  import opened Common
  import opened Degradation
  import opened Readings
  import Scorecard
  import Impact
  import Simulator

  // ----- the investigation -----

  datatype Action = Rollback | Scale | Reprioritize

  datatype Outcome = Completed | AwaitingApproval(options: seq<Action>)

  /** Options are offered when a worker is degraded or a deliverable at risk. */
  function Decide(affected: set<string>, impact: Option<Impact.Projection>): Outcome {
    var atRisk := if impact.Some? then impact.value.atRisk else {};
    if affected == {} && atRisk == {} then Completed else AwaitingApproval([Rollback, Scale, Reprioritize])
  }

  /** The figures a projection needs, when telemetry had them. */
  datatype Figures = Figures(observed: Option<real>, baseline: Option<real>, queue: Option<int>)

  predicate Complete(f: Figures) { f.observed.Some? && f.baseline.Some? && f.queue.Some? }

  /** The impact engine's answer at `asOf`; it may also not answer. */
  ghost function Impacted(p: Impact.Production, affected: set<string>, f: Figures, asOf: Option<real>): Option<Impact.Projection> {
    if Complete(f) && asOf.Some? then
      Some(Impact.Projected(p, affected, f.observed.value, f.baseline.value, f.queue.value, asOf.value))
    else None
  }

  ghost function Investigated(p: Impact.Production, rows: seq<Row>, f: Figures, asOf: Option<real>): Outcome {
    var affected := SplitOf(Durations(rows)).degraded;
    Decide(affected, Impacted(p, affected, f, asOf))
  }

  // ----- the verification -----

  datatype Status = Verified | PartiallyRecovered(delay: nat) | NotRecovered(still: set<string>) | Unverified

  /** `None` for rows when the telemetry could not be read at all. */
  ghost function Verify(p: Impact.Production, rows: Option<seq<Row>>, f: Figures, asOf: Option<real>): Status {
    if rows.None? || Durations(rows.value) == map[] then Unverified
    else
      var still := SplitOf(Durations(rows.value)).degraded;
      var recomputed := Impacted(p, still, f, asOf);
      if still != {} then NotRecovered(still)
      else if recomputed.Some? && recomputed.value.delay > 0 then PartiallyRecovered(recomputed.value.delay)
      else Verified
  }

  // ----- they agree -----

  lemma NoWorkersNoRisk(p: Impact.Production, f: Figures, asOf: Option<real>)
    ensures var r := Impacted(p, {}, f, asOf); r.Some? ==> r.value.delay == 0 && r.value.atRisk == {}
  {
    if Complete(f) && asOf.Some? {
      Impact.ShotsOfUnion(p, {}, {});
      Impact.OverrideExactlyWithoutShots(p, {}, f.observed.value, f.baseline.value, f.queue.value, asOf.value);
    }
  }

  /** On the same readings, whenever each of them asks the impact engine and whether or not
      it answers: a verification succeeds exactly when an investigation would end completed,
      with nothing to approve. */
  lemma VerifiedIffNothingToDo(p: Impact.Production, rows: seq<Row>, f: Figures, at1: Option<real>, at2: Option<real>)
    requires Durations(rows) != map[]
    ensures Verify(p, Some(rows), f, at1).Verified? <==> Investigated(p, rows, f, at2).Completed?
  {
    NoWorkersNoRisk(p, f, at1);
    NoWorkersNoRisk(p, f, at2);
  }

  /** A partial recovery is never reported: without degraded workers there is no delay to report. */
  lemma NeverPartial(p: Impact.Production, rows: Option<seq<Row>>, f: Figures, asOf: Option<real>)
    ensures !Verify(p, rows, f, asOf).PartiallyRecovered?
  {
    NoWorkersNoRisk(p, f, asOf);
  }

  /** A supported hypothesis always reaches the approval gate, with options to choose from. */
  lemma SupportedReachesApproval(p: Impact.Production, ledger: Scorecard.Ledger, tempo: bool, f: Figures, asOf: Option<real>)
    requires Scorecard.Evaluate(ledger, tempo).verdict.Supported?
    ensures var o := Investigated(p, Scorecard.RowsFor(ledger, Scorecard.DURATION), f, asOf); o.AwaitingApproval? && o.options != []
  {
    Scorecard.SupportedMeansCorrelated(ledger, tempo);
  }

  /** A clean, measured fleet is both rejected as a regression and closed without options. */
  lemma CleanFleetCloses(p: Impact.Production, ledger: Scorecard.Ledger, tempo: bool, f: Figures, asOf: Option<real>)
    requires Scorecard.FleetIn(ledger) != map[] && Scorecard.Degraded(ledger) == {}
    ensures Scorecard.Evaluate(ledger, tempo).verdict.Rejected?
    ensures Investigated(p, Scorecard.RowsFor(ledger, Scorecard.DURATION), f, asOf).Completed?
  {
    assert Scorecard.Find(ledger, Scorecard.DURATION).None? ==> Scorecard.FleetIn(ledger) == map[];
    Scorecard.CleanFleetIsRejected(ledger, tempo);
    NoWorkersNoRisk(p, f, asOf);
  }

  // ----- on the simulated farm -----

  /** Mid-incident, with some workers marked and some not: the verifier names exactly the
      marked ones, whatever ran before. */
  lemma IncidentIsNamed(farms: seq<Simulator.Farm>, ops: seq<Simulator.Op>, n: nat, u: Simulator.Draws, i: nat,
                        p: Impact.Production, rows: seq<Row>, f: Figures, asOf: Option<real>)
    requires Simulator.IsRun(farms, ops, n, u) && i < |farms| && Durations(rows) == Simulator.Durations(farms[i])
    requires var marked := Simulator.Marked(farms[i]); marked != {} && marked != farms[i].Keys
    ensures Verify(p, Some(rows), f, asOf) == NotRecovered(Simulator.Marked(farms[i]))
    ensures Investigated(p, rows, f, asOf).AwaitingApproval?
  {
    Simulator.DetectorMatchesMarks(farms, ops, n, u, i);
    var w :| w in Simulator.Marked(farms[i]);
    assert w in Simulator.Durations(farms[i]);
  }

  /** After an approved rollback, whatever ran before and whatever ticks, drains and scalings
      follow until the next incident: the verification succeeds exactly when the farm is not
      on the edge, where strict draws never put it. */
  lemma RollbackIsVerified(farms: seq<Simulator.Farm>, ops: seq<Simulator.Op>, n: nat, u: Simulator.Draws, i: nat, m: nat,
                           p: Impact.Production, rows: seq<Row>, f: Figures, asOf: Option<real>)
    requires Simulator.IsRun(farms, ops, n, u) && i < m <= |ops| && ops[i].Rollback? && Simulator.Calm(ops, i + 1, m, false)
    requires Durations(rows) == Simulator.Durations(farms[m]) && farms[m] != map[]
    ensures Verify(p, Some(rows), f, asOf) == Verified <==> !Simulator.OnTheEdge(farms[m])
    ensures Simulator.Calm(ops, i + 1, m, true) ==> Verify(p, Some(rows), f, asOf) == Verified
  {
    Simulator.CalmAfterRollback(farms, ops, n, u, i, m, false);
    Simulator.DetectorMatchesMarks(farms, ops, n, u, m);
    var w :| w in farms[m];
    assert w in Durations(rows);
    NoWorkersNoRisk(p, f, asOf);
    if Simulator.Calm(ops, i + 1, m, true) {
      Simulator.CalmAfterRollback(farms, ops, n, u, i, m, true);
      Simulator.StrictIsOffTheEdge(farms[m]);
    }
  }

  // ----- the verifier as it runs -----

  /** The settled readings decide; nothing is kept between verifications. The detector and
      the impact engine are called in turn. */
  method VerifyRecovery(p: Impact.Production, rows: Option<seq<Row>>, f: Figures, ghost asOf: Option<real>,
                        still: set<string>, delayAfter: Option<nat>) returns (status: Status, recovered: bool)
    requires rows.Some? ==> still == SplitOf(Durations(rows.value)).degraded
    requires rows.Some? ==>
      var r := Impacted(p, still, f, asOf); delayAfter == if r.Some? then Some(r.value.delay) else None
    ensures status == Verify(p, rows, f, asOf) && (recovered <==> status.Verified?)
  {
    if rows.None? { return Unverified, false; }
    var durations := Durations(rows.value);
    if durations == map[] { return Unverified, false; }
    if still != {} {
      status := NotRecovered(still);
    } else if delayAfter.Some? && delayAfter.value > 0 {
      status := PartiallyRecovered(delayAfter.value);
    } else {
      status := Verified;
    }
    recovered := status == Verified;
  }
}
