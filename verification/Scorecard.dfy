/** The six falsifiable tests over an evidence ledger, and the verdict they add up to. */
module Scorecard {
  import opened Common
  import opened Degradation
  import opened Readings

  const STALLED: real := 0.60
  const DOMINANCE: real := 0.5

  /** Total seconds of one span name. */
  datatype Span = Span(name: string, seconds: real)

  /** One piece of evidence with what the readers make of its payload: the rows of a
      metric query, the newest readable sample time, whether a configuration line is in
      the text and when it was written, the first number, and the span totals. */
  datatype Evidence = Evidence(
    query: string, tool: string,
    rows: seq<Row>, sampledAt: Option<real>,
    configLine: bool, loggedAt: Option<real>,
    scalar: Option<real>,
    spans: seq<Span>)

  type Ledger = seq<Evidence>

  const DURATION := "render_worker_frame_duration_seconds"
  const GPU := "render_worker_gpu_utilization_ratio"
  const CONFIG := "renderer_config_loaded"
  const TRACE_TOOL := "tempo_traceql-search"

  // ----- reading the ledger -----

  predicate Contains(text: string, hint: string) {
    |hint| <= |text| && (text[..|hint|] == hint || (text != "" && Contains(text[1..], hint)))
  }

  /** The most recent entry whose query mentions the hint. */
  function Find(ledger: Ledger, hint: string): Option<Evidence> {
    if ledger == [] then None
    else if Contains(ledger[|ledger| - 1].query, hint) then Some(ledger[|ledger| - 1])
    else Find(ledger[..|ledger| - 1], hint)
  }

  function FindByTool(ledger: Ledger, tool: string): Option<Evidence> {
    if ledger == [] then None
    else if ledger[|ledger| - 1].tool == tool then Some(ledger[|ledger| - 1])
    else FindByTool(ledger[..|ledger| - 1], tool)
  }

  function RowsFor(ledger: Ledger, hint: string): seq<Row> {
    match Find(ledger, hint)
    case None => []
    case Some(e) => e.rows
  }

  function FleetIn(ledger: Ledger): Fleet { Durations(RowsFor(ledger, DURATION)) }

  ghost function Degraded(ledger: Ledger): set<string> { SplitOf(FleetIn(ledger)).degraded }

  // ----- the tests -----

  /** `measured` is whether the snippet reports evidence rather than its absence. */
  datatype Test = Test(passed: bool, applicable: bool, measured: bool)

  const NO_EVIDENCE := Test(false, true, false)

  ghost function Correlation(ledger: Ledger): Test {
    if Find(ledger, DURATION).None? || FleetIn(ledger) == map[] then NO_EVIDENCE
    else Test(Degraded(ledger) != {}, true, true)
  }

  ghost function Stalled(ledger: Ledger): set<string> {
    var gpu := ByWorker(RowsFor(ledger, GPU));
    set w | w in Degraded(ledger) && w in gpu && gpu[w].value < STALLED
  }

  ghost function Mechanism(ledger: Ledger): Test {
    if Find(ledger, GPU).None? || Find(ledger, DURATION).None? then NO_EVIDENCE
    else if ByWorker(RowsFor(ledger, GPU)) == map[] || FleetIn(ledger) == map[] then NO_EVIDENCE
    else if Degraded(ledger) == {} then NO_EVIDENCE
    else Test(Stalled(ledger) != {}, true, true)
  }

  function VersionsOf(ledger: Ledger, workers: set<string>): set<string> {
    var readings := ByWorker(RowsFor(ledger, DURATION));
    set w | w in workers && w in readings :: readings[w].version
  }

  function RunningVersion(ledger: Ledger, version: string): set<string> {
    var readings := ByWorker(RowsFor(ledger, DURATION));
    set w | w in readings && readings[w].version == version
  }

  /** Degraded workers share one version and are all the workers on it. */
  ghost predicate Localized(ledger: Ledger) {
    exists v :: VersionsOf(ledger, Degraded(ledger)) == {v} && Degraded(ledger) == RunningVersion(ledger, v)
  }

  ghost function Localization(ledger: Ledger): Test {
    if Find(ledger, DURATION).None? || FleetIn(ledger) == map[] then NO_EVIDENCE
    else if |VersionsOf(ledger, FleetIn(ledger).Keys) - {""}| < 2 then NO_EVIDENCE
    else if Degraded(ledger) == {} then Test(false, true, true)
    else Test(Localized(ledger), true, true)
  }

  ghost predicate ControlsStable(fleet: Fleet, control: set<string>)
    requires control <= fleet.Keys
  {
    (forall w :: w in control ==> fleet[w] > 0.0)
    && forall v, w :: v in control && w in control && fleet[w] > 0.0 ==> fleet[v] / fleet[w] < FACTOR
  }

  ghost function ControlGroup(ledger: Ledger): Test {
    var fleet := FleetIn(ledger);
    DegradedAreTwiceAsSlow(fleet);
    var control := SplitOf(fleet).healthy;
    if Find(ledger, DURATION).None? || fleet == map[] then NO_EVIDENCE
    else if control == {} then NO_EVIDENCE
    else Test(ControlsStable(fleet, control), true, true)
  }

  ghost function Precedence(ledger: Ledger): Test {
    match Find(ledger, CONFIG)
    case None => NO_EVIDENCE
    case Some(log) =>
      if !log.configLine || log.loggedAt.None? then NO_EVIDENCE
      else
        match Find(ledger, DURATION)
        case None => NO_EVIDENCE
        case Some(d) =>
          if Degraded(ledger) == {} then Test(false, true, true)
          else if d.sampledAt.None? then NO_EVIDENCE
          else Test(log.loggedAt.value <= d.sampledAt.value, true, true)
  }

  function Total(spans: seq<Span>): real {
    if spans == [] then 0.0 else spans[0].seconds + Total(spans[1..])
  }

  function RenderOnly(spans: seq<Span>): seq<Span> {
    if spans == [] then []
    else (if Contains(Lower(spans[0].name), "render") then [spans[0]] else []) + RenderOnly(spans[1..])
  }

  function Attribution(ledger: Ledger, tempo: bool): Test {
    if !tempo then Test(false, false, true)
    else
      match FindByTool(ledger, TRACE_TOOL)
      case None => NO_EVIDENCE
      case Some(e) =>
        if e.spans == [] || Total(e.spans) <= 0.0 then NO_EVIDENCE
        else Test(Total(RenderOnly(e.spans)) / Total(e.spans) >= DOMINANCE, true, true)
  }

  // ----- adding up -----

  datatype Confidence = Low | Medium | High

  datatype Verdict = Supported | Rejected | Inconclusive

  datatype Card = Card(tests: seq<Test>, passed: nat, total: nat, confidence: Confidence, verdict: Verdict)

  function Bit(b: bool): nat { if b then 1 else 0 }

  /** How many of the first `k` tests apply. */
  function Applicable(tests: seq<Test>, k: nat): nat
    requires k <= |tests|
  {
    if k == 0 then 0 else Applicable(tests, k - 1) + Bit(tests[k - 1].applicable)
  }

  /** How many of the first `k` tests apply and passed. */
  function Passes(tests: seq<Test>, k: nat): nat
    requires k <= |tests|
  {
    if k == 0 then 0 else Passes(tests, k - 1) + Bit(tests[k - 1].applicable && tests[k - 1].passed)
  }

  /** Two thirds of the applicable tests, rounded up; `/` rounds towards minus infinity here. */
  function MediumAt(total: nat): (m: int)
    ensures m >= 1 && 3 * m >= 2 * total && (total > 0 ==> 3 * (m - 1) < 2 * total)
  {
    var thirds: int := -((-(total as int) * 2) / 3);
    if thirds < 1 then 1 else thirds
  }

  ghost function Evaluate(ledger: Ledger, tempo: bool): Card {
    var correlation := Correlation(ledger);
    var tests := [Precedence(ledger), correlation, Mechanism(ledger), Localization(ledger), Attribution(ledger, tempo), ControlGroup(ledger)];
    var total, passed := Applicable(tests, |tests|), Passes(tests, |tests|);
    var confidence := if total > 0 && passed == total then High else if passed >= MediumAt(total) then Medium else Low;
    var verdict :=
      if passed >= MediumAt(total) then Supported
      else if !correlation.passed && correlation.measured then Rejected
      else Inconclusive;
    Card(tests, passed, total, confidence, verdict)
  }

  // ----- what the verdict means -----

  lemma SixCounted(tests: seq<Test>)
    requires |tests| == 6
    ensures Applicable(tests, 6) == Bit(tests[0].applicable) + Bit(tests[1].applicable) + Bit(tests[2].applicable)
                                  + Bit(tests[3].applicable) + Bit(tests[4].applicable) + Bit(tests[5].applicable)
    ensures Passes(tests, 6) == Bit(tests[0].applicable && tests[0].passed) + Bit(tests[1].applicable && tests[1].passed)
                              + Bit(tests[2].applicable && tests[2].passed) + Bit(tests[3].applicable && tests[3].passed)
                              + Bit(tests[4].applicable && tests[4].passed) + Bit(tests[5].applicable && tests[5].passed)
  {
    assert Applicable(tests, 1) == Bit(tests[0].applicable) && Passes(tests, 1) == Bit(tests[0].applicable && tests[0].passed);
    assert Applicable(tests, 2) == Bit(tests[0].applicable) + Bit(tests[1].applicable);
    assert Applicable(tests, 4) == Applicable(tests, 2) + Bit(tests[2].applicable) + Bit(tests[3].applicable);
    assert Passes(tests, 2) == Bit(tests[0].applicable && tests[0].passed) + Bit(tests[1].applicable && tests[1].passed);
    assert Passes(tests, 4) == Passes(tests, 2) + Bit(tests[2].applicable && tests[2].passed) + Bit(tests[3].applicable && tests[3].passed);
  }

  lemma CardCounts(ledger: Ledger, tempo: bool)
    ensures var card := Evaluate(ledger, tempo);
      && card.total == 5 + Bit(tempo)
      && card.passed == Bit(Precedence(ledger).passed) + Bit(Correlation(ledger).passed) + Bit(Mechanism(ledger).passed)
                      + Bit(Localization(ledger).passed) + Bit(Attribution(ledger, tempo).passed) + Bit(ControlGroup(ledger).passed)
      && MediumAt(card.total) == 4
  {
    SixCounted([Precedence(ledger), Correlation(ledger), Mechanism(ledger), Localization(ledger), Attribution(ledger, tempo), ControlGroup(ledger)]);
  }

  /** With no degraded worker four of the tests fail, whatever the other evidence is. */
  lemma NothingDegradedFailsFour(ledger: Ledger)
    requires Degraded(ledger) == {}
    ensures !Precedence(ledger).passed && !Correlation(ledger).passed && !Mechanism(ledger).passed && !Localization(ledger).passed
  {}

  lemma EmptyFleetHasNoDegraded(ledger: Ledger)
    requires FleetIn(ledger) == map[]
    ensures Degraded(ledger) == {}
  {
    DegradedAreTwiceAsSlow(FleetIn(ledger));
  }

  /** Support needs a degraded worker: the correlation test then passed. */
  lemma SupportedMeansCorrelated(ledger: Ledger, tempo: bool)
    requires Evaluate(ledger, tempo).verdict.Supported?
    ensures Correlation(ledger).passed && Degraded(ledger) != {}
  {
    CardCounts(ledger, tempo);
    if FleetIn(ledger) == map[] { EmptyFleetHasNoDegraded(ledger); }
    if Degraded(ledger) == {} { NothingDegradedFailsFour(ledger); }
    assert Find(ledger, DURATION).None? ==> RowsFor(ledger, DURATION) == [] && FleetIn(ledger) == map[];
  }

  /** A measured fleet in which nothing is degraded refutes the hypothesis, always. */
  lemma CleanFleetIsRejected(ledger: Ledger, tempo: bool)
    requires Find(ledger, DURATION).Some? && FleetIn(ledger) != map[] && Degraded(ledger) == {}
    ensures Evaluate(ledger, tempo).verdict == Rejected
  {
    CardCounts(ledger, tempo);
    NothingDegradedFailsFour(ledger);
  }

  /** The verdict and the confidence never disagree. */
  lemma LowExactlyWhenNotSupported(ledger: Ledger, tempo: bool)
    ensures var card := Evaluate(ledger, tempo); card.confidence.Low? <==> !card.verdict.Supported?
  {
    CardCounts(ledger, tempo);
  }

  /** Full confidence means: some degraded worker is stalled on memory, the degraded
      workers are exactly those on one version, the others are stable, the change was
      logged before the reading, and render spans hold at least half of the time when
      traces are available. */
  lemma HighMeansAllOfIt(ledger: Ledger, tempo: bool)
    requires Evaluate(ledger, tempo).confidence.High?
    ensures Degraded(ledger) != {} && Stalled(ledger) != {} && Localized(ledger)
    ensures SplitOf(FleetIn(ledger)).healthy <= FleetIn(ledger).Keys && ControlsStable(FleetIn(ledger), SplitOf(FleetIn(ledger)).healthy)
    ensures Find(ledger, CONFIG).Some? && Find(ledger, DURATION).Some?
    ensures var logged, sampled := Find(ledger, CONFIG).value.loggedAt, Find(ledger, DURATION).value.sampledAt;
      logged.Some? && sampled.Some? && logged.value <= sampled.value
    ensures tempo ==> Attribution(ledger, true).passed
  {
    CardCounts(ledger, tempo);
    DegradedAreTwiceAsSlow(FleetIn(ledger));
  }
}
