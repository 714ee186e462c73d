/** What is persisted for a run that reached the engine: snapshots and metrics for a completed run,
    neither for a failed one. */
module Artifact {
  import opened Wrappers
  import opened Domain
  import opened Valuation
  import opened Metrics

  datatype Bundle = Bundle(terminalStatus: TerminalStatus, eventCount: nat, warningCount: nat,
                           snapshots: seq<Snapshot>, metrics: seq<Metric>)

  function EventCount(r: ExecutionResult): nat {
    |r.orders| + |r.fills| + |r.positions| + |r.cashEvents|
  }

  /** The bundle, or `None` when computing the metrics raises. */
  function Build(r: ExecutionResult, bars: seq<Bar>, initial: real, basis: int, power: Power): Option<Bundle> {
    if r.terminalStatus.RunCompleted? then
      var snapshots := Snapshots(bars, r.cashEvents, r.positions, initial);
      match Compute(initial, snapshots, r.fills, basis, power)
      case None => None
      case Some(metrics) => Some(Bundle(r.terminalStatus, EventCount(r), |r.warnings|, snapshots, metrics))
    else
      Some(Bundle(r.terminalStatus, EventCount(r), |r.warnings|, [], []))
  }

  /** The bundle agrees with the run and counts its events and warnings; nothing is made up for a failed
      one, and a completed one has the snapshots of its bars and the nine metrics of those. Building it
      raises only for a completed run of more than one bar, when the annual power raises. */
  lemma BundleConsistent(r: ExecutionResult, bars: seq<Bar>, initial: real, basis: int, power: Power, key: MetricKey)
    ensures var built := Build(r, bars, initial, basis, power);
      && (built.None? <==>
            && r.terminalStatus.RunCompleted?
            && GrowthRaises(initial, Snapshots(bars, r.cashEvents, r.positions, initial), basis, power))
      && (built.Some? ==> var b := built.value;
           && b.terminalStatus == r.terminalStatus && b.warningCount == |r.warnings|
           && b.eventCount == |r.orders| + |r.fills| + |r.positions| + |r.cashEvents|
           && (r.terminalStatus.RunCompleted? ==>
                 && b.snapshots == Snapshots(bars, r.cashEvents, r.positions, initial)
                 && Some(b.metrics) == Compute(initial, b.snapshots, r.fills, basis, power))
           && (r.terminalStatus.RunFailed? ==> b.snapshots == [] && b.metrics == [])
           && (r.terminalStatus.RunCompleted? ==> |b.snapshots| == |bars| && Keys(b.metrics) == KEYS)
           && (ObjectiveOf(b.metrics, key).ObjectiveMetricNotComputed? <==> r.terminalStatus.RunFailed?))
  {
    hide Compute, Snapshots;
    if r.terminalStatus.RunCompleted? {
      var snapshots := Snapshots(bars, r.cashEvents, r.positions, initial);
      NineKeys(initial, snapshots, r.fills, basis, power);
      AllSnapshotsValid(bars, r.cashEvents, r.positions, initial);
      var built := Build(r, bars, initial, basis, power);
      if built.Some? {
        ObjectiveFound(built.value.metrics, key);
      }
    }
  }

  lemma AllSnapshotsValid(bars: seq<Bar>, cashEvents: seq<CashEvent>, positions: seq<PositionEvent>, initial: real)
    ensures var s := Snapshots(bars, cashEvents, positions, initial); |s| == |bars| && OnlyValid(s) == s
  {
    AllValid(Snapshots(bars, cashEvents, positions, initial));
  }
}
