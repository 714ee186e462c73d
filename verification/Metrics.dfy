/** The nine metrics of a completed run, and the objective an optimization reads from them. */
module Metrics {
  import opened Wrappers
  import opened Domain
  import opened Exact
  import opened Sequences
  import opened Valuation
  import Fifo

  datatype MetricKey = InitialEquity | FinalEquity | TotalReturn | AnnualizedReturn | MaxDrawdown
                     | TradeCount | WinRate | RealizedPnl | ExposureTimeRatio

  datatype Reason = NoValidPortfolioSnapshots | MissingEquityEndpoint | InsufficientElapsedSessions | ZeroTrades

  datatype MetricStatus = Available(value: real) | NotAvailable(reason: Reason)

  datatype Metric = Metric(key: MetricKey, status: MetricStatus)

  /** The order in which the metrics are recorded. */
  const KEYS: seq<MetricKey> := [InitialEquity, FinalEquity, TotalReturn, AnnualizedReturn, MaxDrawdown,
                                 TradeCount, WinRate, RealizedPnl, ExposureTimeRatio]

  /** `ratio ** (basis / sessions)`, not interpreted; `None` where it raises, on an overflow or on a
      fractional power of a negative ratio. */
  type Power = (real, int, int) -> Option<real>

  function Keys(metrics: seq<Metric>): (r: seq<MetricKey>)
    ensures |r| == |metrics|
  {
    seq(|metrics|, i requires 0 <= i < |metrics| => metrics[i].key)
  }

  // ---- Drawdown ----

  function Max(a: real, b: real): real {
    if a <= b then b else a
  }

  function Min(a: real, b: real): real {
    if a <= b then a else b
  }

  function Peak(equities: seq<real>): real
    requires equities != []
  {
    if |equities| == 1 then equities[0] else Max(Peak(Init(equities)), Last(equities))
  }

  /** The lowest of 0 and every equity relative to the highest one up to it. */
  function Drawdown(equities: seq<real>): real {
    if equities == [] then 0.0
    else
      var before := Drawdown(Init(equities));
      if 0.0 < Peak(equities) then Min(before, Over(Last(equities), Peak(equities)) - 1.0) else before
  }

  function Equities(snapshots: seq<Snapshot>): (r: seq<real>)
    ensures |r| == |snapshots|
  {
    seq(|snapshots|, i requires 0 <= i < |snapshots| => snapshots[i].totalEquity)
  }

  method MaxDrawdownOf(snapshots: seq<Snapshot>) returns (m: Metric)
    ensures m == DrawdownMetric(snapshots)
  {
    hide Over;
    if snapshots == [] {
      return Metric(MaxDrawdown, MetricStatus.NotAvailable(NoValidPortfolioSnapshots));
    }
    var runningMax := snapshots[0].totalEquity;
    var minDrawdown := 0.0;
    ghost var e := Equities(snapshots);
    for i := 0 to |snapshots|
      invariant runningMax == if i == 0 then e[0] else Peak(e[..i])
      invariant minDrawdown == Drawdown(e[..i])
    {
      assert Init(e[..i + 1]) == e[..i] && Last(e[..i + 1]) == e[i];
      var equity := snapshots[i].totalEquity;
      runningMax := Max(runningMax, equity);
      if 0.0 < runningMax {
        minDrawdown := Min(minDrawdown, Over(equity, runningMax) - 1.0);
      }
    }
    assert e[..|snapshots|] == e;
    m := Metric(MaxDrawdown, Available(minDrawdown));
  }

  function DrawdownMetric(snapshots: seq<Snapshot>): Metric {
    Metric(MaxDrawdown, if snapshots == [] then MetricStatus.NotAvailable(NoValidPortfolioSnapshots)
                        else Available(Drawdown(Equities(snapshots))))
  }

  /** From `i` to `j` the portfolio fell (or, when positive, rose) by this fraction. */
  function Fall(equities: seq<real>, i: nat, j: nat): real
    requires i <= j < |equities| && equities[i] != 0.0
  {
    Over(equities[j], equities[i]) - 1.0
  }

  ghost predicate Reached(equities: seq<real>, d: real) {
    exists i: nat, j: nat :: i <= j < |equities| && 0.0 < equities[i] && d == Fall(equities, i, j)
  }

  ghost predicate BelowEveryFall(equities: seq<real>, d: real) {
    forall i: nat, j: nat :: i <= j < |equities| && 0.0 < equities[i] ==> d <= Fall(equities, i, j)
  }

  lemma {:induction false} PeakIsHighest(equities: seq<real>) returns (at: nat)
    requires equities != []
    ensures at < |equities| && equities[at] == Peak(equities)
    ensures forall i :: 0 <= i < |equities| ==> equities[i] <= Peak(equities)
  {
    at := 0;
    if |equities| > 1 {
      at := PeakIsHighest(Init(equities));
      forall i | 0 <= i < |equities| ensures equities[i] <= Peak(equities) {
        if i < |equities| - 1 { assert equities[i] == Init(equities)[i]; }
      }
      if Peak(Init(equities)) <= Last(equities) { at := |equities| - 1; }
    }
  }

  /** For equities that are never negative, the one-pass result is the worst fall between any two
      points in time order: no pair falls further, and it is 0 or some pair falls exactly that far. */
  lemma {:induction false} DrawdownIsWorstFall(equities: seq<real>)
    requires forall i :: 0 <= i < |equities| ==> 0.0 <= equities[i]
    ensures -1.0 <= Drawdown(equities) <= 0.0
    ensures BelowEveryFall(equities, Drawdown(equities))
    ensures Drawdown(equities) == 0.0 || Reached(equities, Drawdown(equities))
  {
    hide Over;
    if equities != [] {
      var before, last, n := Init(equities), Last(equities), |equities|;
      DrawdownIsWorstFall(before);
      var d := Drawdown(before);
      var at := PeakIsHighest(equities);
      var peak := Peak(equities);
      forall i: nat, j: nat | i <= j < n && 0.0 < equities[i]
        ensures Drawdown(equities) <= Fall(equities, i, j)
      {
        if j < n - 1 {
          assert Fall(equities, i, j) == Fall(before, i, j);
        } else {
          OverAntitone(last, equities[i], peak);
        }
      }
      if 0.0 < peak {
        OverZero(peak);
        OverMono(0.0, last, peak);
        assert Fall(equities, at, n - 1) == Over(last, peak) - 1.0;
      }
      if Drawdown(equities) == d && d != 0.0 {
        var i: nat, j: nat :| i <= j < n - 1 && 0.0 < before[i] && d == Fall(before, i, j);
        assert d == Fall(equities, i, j);
      }
    }
  }

  // ---- The other metrics ----

  /** The growth over the period, raised to the annual power: undefined when that raises. */
  function Growth(initial: real, snapshots: seq<Snapshot>, basis: int, power: Power): Option<real>
    requires 0.0 < initial && 1 < |snapshots|
  {
    power(Over(Last(snapshots).totalEquity, initial), basis, |snapshots| - 1)
  }

  /** Computing the metrics raises exactly when there is a growth to annualize and its power raises. */
  predicate GrowthRaises(initial: real, snapshots: seq<Snapshot>, basis: int, power: Power) {
    0.0 < initial && 1 < |snapshots| && Growth(initial, snapshots, basis, power).None?
  }

  function EquityMetrics(initial: real, snapshots: seq<Snapshot>, basis: int, power: Power): Option<seq<Metric>> {
    var first := Metric(InitialEquity, Available(initial));
    if snapshots == [] then
      Some([first,
            Metric(FinalEquity, MetricStatus.NotAvailable(NoValidPortfolioSnapshots)),
            Metric(TotalReturn, MetricStatus.NotAvailable(MissingEquityEndpoint)),
            Metric(AnnualizedReturn, MetricStatus.NotAvailable(InsufficientElapsedSessions))])
    else
      var final := Last(snapshots).totalEquity;
      if initial <= 0.0 then
        Some([first,
              Metric(FinalEquity, Available(final)),
              Metric(TotalReturn, MetricStatus.NotAvailable(MissingEquityEndpoint)),
              Metric(AnnualizedReturn, MetricStatus.NotAvailable(InsufficientElapsedSessions))])
      else
        var start := [first, Metric(FinalEquity, Available(final)),
            Metric(TotalReturn, Available(Over(final, initial) - 1.0))];
        if |snapshots| == 1 then
          Some(start + [Metric(AnnualizedReturn, MetricStatus.NotAvailable(InsufficientElapsedSessions))])
        else
          match Growth(initial, snapshots, basis, power)
          case None => None
          case Some(annual) => Some(start + [Metric(AnnualizedReturn, Available(annual - 1.0))])
  }

  function CountWins(realized: seq<real>): nat {
    if realized == [] then 0 else CountWins(Init(realized)) + if Last(realized) > 0.0 then 1 else 0
  }

  function TradeMetrics(realized: seq<real>): seq<Metric> {
    [Metric(TradeCount, Available(|realized| as real)),
     Metric(WinRate, if realized == [] then MetricStatus.NotAvailable(ZeroTrades)
                     else Available(Over(CountWins(realized) as real, |realized| as real))),
     Metric(RealizedPnl, Available(Fifo.Sum(realized)))]
  }

  function CountExposed(snapshots: seq<Snapshot>): nat {
    if snapshots == [] then 0 else CountExposed(Init(snapshots)) + if Last(snapshots).holdingsValue > 0.0 then 1 else 0
  }

  function ExposureMetric(snapshots: seq<Snapshot>): Metric {
    Metric(ExposureTimeRatio,
           if snapshots == [] then MetricStatus.NotAvailable(NoValidPortfolioSnapshots)
           else Available(Over(CountExposed(snapshots) as real, |snapshots| as real)))
  }

  function OnlyValid(snapshots: seq<Snapshot>): seq<Snapshot> {
    if snapshots == [] then []
    else OnlyValid(Init(snapshots)) + if Last(snapshots).status == Valid then [Last(snapshots)] else []
  }

  function Compute(initial: real, snapshots: seq<Snapshot>, fills: seq<FillEvent>, basis: int, power: Power)
    : Option<seq<Metric>>
  {
    var valid := OnlyValid(snapshots);
    match EquityMetrics(initial, valid, basis, power)
    case None => None
    case Some(equity) =>
      Some(equity + [DrawdownMetric(valid)] + TradeMetrics(Fifo.Replay(fills).realized) + [ExposureMetric(valid)])
  }

  /** The metrics, or `None` when computing them raises. */
  method ComputeMetrics(initial: real, snapshots: seq<Snapshot>, fills: seq<FillEvent>, basis: int, power: Power)
    returns (computed: Option<seq<Metric>>)
    ensures Fifo.NonNegative(fills) ==> computed == Compute(initial, snapshots, fills, basis, power)
    ensures computed.None? <==> GrowthRaises(initial, OnlyValid(snapshots), basis, power)
    ensures computed.Some? ==> Keys(computed.value) == KEYS
  {
    hide Over, Fifo.Replay, DrawdownMetric;
    var valid := OnlyValid(snapshots);
    var equity := EquityMetrics(initial, valid, basis, power);
    if equity == None {
      return None;
    }
    var records := equity.value;
    var drawdown := MaxDrawdownOf(valid);
    assert drawdown.key == MaxDrawdown by { DrawdownKey(valid); }
    records := records + [drawdown];
    var realized := Fifo.ComputeFifoRealizedPnl(fills);
    records := records + TradeMetrics(realized);
    computed := Some(records + [ExposureMetric(valid)]);
  }

  lemma DrawdownKey(snapshots: seq<Snapshot>)
    ensures DrawdownMetric(snapshots).key == MaxDrawdown
  {}

  /** Whatever the inputs, unless the annual power raises: exactly the nine keys, each once, in a fixed
      order. */
  lemma NineKeys(initial: real, snapshots: seq<Snapshot>, fills: seq<FillEvent>, basis: int, power: Power)
    ensures var computed := Compute(initial, snapshots, fills, basis, power);
      && (computed.None? <==> GrowthRaises(initial, OnlyValid(snapshots), basis, power))
      && (computed.Some? ==> Keys(computed.value) == KEYS)
  {
    hide Over, Fifo.Replay, Fifo.Sum, Drawdown, OnlyValid, CountWins, CountExposed, Equities;
  }

  lemma {:induction false} AllValid(snapshots: seq<Snapshot>)
    requires forall i :: 0 <= i < |snapshots| ==> snapshots[i].status == Valid
    ensures OnlyValid(snapshots) == snapshots
  {
    if snapshots != [] {
      AllValid(Init(snapshots));
      assert Init(snapshots) + [Last(snapshots)] == snapshots;
    }
  }

  // ---- The objective ----

  datatype Objective = ObjectiveAvailable(value: real) | MetricUnavailable(reason: Reason) | ObjectiveMetricNotComputed

  function Find(metrics: seq<Metric>, key: MetricKey): Option<Metric> {
    if metrics == [] then None else if metrics[0].key == key then Some(metrics[0]) else Find(metrics[1..], key)
  }

  function ObjectiveOf(metrics: seq<Metric>, key: MetricKey): Objective {
    match Find(metrics, key)
    case None => ObjectiveMetricNotComputed
    case Some(m) => if m.status.Available? then ObjectiveAvailable(m.status.value)
        else MetricUnavailable(m.status.reason)
  }

  lemma {:induction false} FindAt(metrics: seq<Metric>, key: MetricKey, i: nat)
    requires i < |metrics| && metrics[i].key == key && (forall j :: 0 <= j < i ==> metrics[j].key != key)
    ensures Find(metrics, key) == Some(metrics[i])
  {
    if i > 0 {
      FindAt(metrics[1..], key, i - 1);
    }
  }

  lemma {:induction false} FindSome(metrics: seq<Metric>, i: nat)
    requires i < |metrics|
    ensures Find(metrics, metrics[i].key).Some?
  {
    if i > 0 {
      FindSome(metrics[1..], i - 1);
    }
  }

  /** Every allowed key is among the nine, so the lookup always finds its metric and the objective of
      a computed set of metrics is never "not computed". */
  lemma ObjectiveFound(metrics: seq<Metric>, key: MetricKey)
    requires Keys(metrics) == KEYS
    ensures !ObjectiveOf(metrics, key).ObjectiveMetricNotComputed?
  {
    var i := EveryKeyIsListed(key);
    assert Keys(metrics)[i] == key;
    FindSome(metrics, i);
  }

  // ---- What the values mean ----

  /** The indices of the valid ones among the first `n` snapshots. */
  function ValidAt(snapshots: seq<Snapshot>, n: nat): set<nat>
    requires n <= |snapshots|
  {
    set i: nat | i < n && snapshots[i].status == Valid
  }

  lemma {:induction false} OnlyValidCounted(snapshots: seq<Snapshot>)
    ensures |OnlyValid(snapshots)| == |ValidAt(snapshots, |snapshots|)|
  {
    if snapshots != [] {
      var before, last := Init(snapshots), |snapshots| - 1;
      OnlyValidCounted(before);
      assert ValidAt(snapshots, |snapshots|)
          == ValidAt(before, last) + if snapshots[last].status == Valid then {last} else {};
    }
  }

  lemma {:induction false} OnlyValidPlaces(snapshots: seq<Snapshot>, i: nat)
    requires i < |snapshots| && snapshots[i].status == Valid
    ensures |ValidAt(snapshots, i)| < |OnlyValid(snapshots)|
    ensures OnlyValid(snapshots)[|ValidAt(snapshots, i)|] == snapshots[i]
  {
    var before, last := Init(snapshots), |snapshots| - 1;
    assert ValidAt(snapshots, i) == ValidAt(before, i);
    if i < last {
      OnlyValidPlaces(before, i);
    } else {
      OnlyValidCounted(before);
    }
  }

  /** The snapshots that count are the valid ones, in their order: each comes after as many as there are
      valid ones before it. */
  lemma OnlyValidExactly(snapshots: seq<Snapshot>)
    ensures |OnlyValid(snapshots)| == |ValidAt(snapshots, |snapshots|)|
    ensures forall i :: 0 <= i < |snapshots| && snapshots[i].status == Valid ==>
      |ValidAt(snapshots, i)| < |OnlyValid(snapshots)|
          && OnlyValid(snapshots)[|ValidAt(snapshots, i)|] == snapshots[i]
  {
    hide OnlyValid, ValidAt;
    OnlyValidCounted(snapshots);
    forall i | 0 <= i < |snapshots| && snapshots[i].status == Valid
      ensures |ValidAt(snapshots, i)| < |OnlyValid(snapshots)|
      ensures OnlyValid(snapshots)[|ValidAt(snapshots, i)|] == snapshots[i]
    {
      OnlyValidPlaces(snapshots, i);
    }
  }

  function WinsAt(realized: seq<real>): set<nat> {
    set i: nat | i < |realized| && realized[i] > 0.0
  }

  function ExposedAt(snapshots: seq<Snapshot>): set<nat> {
    set i: nat | i < |snapshots| && snapshots[i].holdingsValue > 0.0
  }

  lemma {:induction false} WinsCounted(realized: seq<real>)
    ensures CountWins(realized) == |WinsAt(realized)|
  {
    if realized != [] {
      WinsCounted(Init(realized));
      var last := |realized| - 1;
      assert WinsAt(realized) == WinsAt(Init(realized)) + if realized[last] > 0.0 then {last} else {};
    }
  }

  lemma {:induction false} ExposureCounted(snapshots: seq<Snapshot>)
    ensures CountExposed(snapshots) == |ExposedAt(snapshots)|
  {
    if snapshots != [] {
      ExposureCounted(Init(snapshots));
      var last := |snapshots| - 1;
      assert ExposedAt(snapshots)
          == ExposedAt(Init(snapshots)) + if snapshots[last].holdingsValue > 0.0 then {last} else {};
    }
  }

  /** The metric with this key has this value; or has none, for this reason. */
  predicate Has(m: seq<Metric>, key: MetricKey, value: real) {
    ObjectiveOf(m, key) == ObjectiveAvailable(value)
  }

  predicate Lacks(m: seq<Metric>, key: MetricKey, reason: Reason) {
    ObjectiveOf(m, key) == MetricUnavailable(reason)
  }

  /** The share that `part` is of `whole`. */
  ghost predicate IsShare(m: seq<Metric>, key: MetricKey, part: nat, whole: nat) {
    exists value :: Has(m, key, value) && Times(value, whole as real) == part as real
  }

  lemma ShareOf(m: seq<Metric>, key: MetricKey, part: nat, whole: nat)
    requires 0 < whole && Has(m, key, Over(part as real, whole as real))
    ensures IsShare(m, key, part, whole)
  {
    hide Times, Over, Has;
    OverTimes(part as real, whole as real);
  }

  /** Where each metric stands among the nine. */
  lemma {:induction false} MetricsFound(m: seq<Metric>)
    requires Keys(m) == KEYS
    ensures Find(m, InitialEquity) == Some(m[0]) && Find(m, FinalEquity) == Some(m[1])
    ensures Find(m, TotalReturn) == Some(m[2]) && Find(m, AnnualizedReturn) == Some(m[3])
    ensures Find(m, MaxDrawdown) == Some(m[4]) && Find(m, TradeCount) == Some(m[5])
    ensures Find(m, WinRate) == Some(m[6]) && Find(m, RealizedPnl) == Some(m[7])
    ensures Find(m, ExposureTimeRatio) == Some(m[8])
  {
    assert forall i :: 0 <= i < |KEYS| ==> m[i].key == Keys(m)[i];
    FindAt(m, InitialEquity, 0);
    FindAt(m, FinalEquity, 1);
    FindAt(m, TotalReturn, 2);
    FindAt(m, AnnualizedReturn, 3);
    FindAt(m, MaxDrawdown, 4);
    FindAt(m, TradeCount, 5);
    FindAt(m, WinRate, 6);
    FindAt(m, RealizedPnl, 7);
    FindAt(m, ExposureTimeRatio, 8);
  }

  /** Equity: the capital; the last snapshot's equity; the return, which takes the one to the other; the
      return per year, which is the power of their ratio less one. */
  lemma EquityValues(initial: real, snapshots: seq<Snapshot>, fills: seq<FillEvent>, basis: int, power: Power)
    requires Compute(initial, snapshots, fills, basis, power).Some?
    ensures var m, v := Compute(initial, snapshots, fills, basis, power).value, OnlyValid(snapshots);
      && Has(m, InitialEquity, initial)
      && (v == [] ==> Lacks(m, FinalEquity, NoValidPortfolioSnapshots))
      && (v != [] ==> Has(m, FinalEquity, Last(v).totalEquity))
      && (v == [] || initial <= 0.0 ==> Lacks(m, TotalReturn, MissingEquityEndpoint))
      && (v != [] && 0.0 < initial ==>
            exists x :: Has(m, TotalReturn, x) && Times(1.0 + x, initial) == Last(v).totalEquity)
      && (|v| <= 1 || initial <= 0.0 ==> Lacks(m, AnnualizedReturn, InsufficientElapsedSessions))
      && (1 < |v| && 0.0 < initial ==>
            exists y :: Has(m, AnnualizedReturn, y)
              && power(Over(Last(v).totalEquity, initial), basis, |v| - 1) == Some(1.0 + y))
  {
    hide Times, Over, Fifo.Replay, TradeMetrics, ExposureMetric, DrawdownMetric, OnlyValid, Find;
    var m, v := Compute(initial, snapshots, fills, basis, power).value, OnlyValid(snapshots);
    NineKeys(initial, snapshots, fills, basis, power);
    MetricsFound(m);
    if v != [] && 0.0 < initial {
      var ratio := Over(Last(v).totalEquity, initial);
      OverTimes(Last(v).totalEquity, initial);
      assert Has(m, TotalReturn, ratio - 1.0) && 1.0 + (ratio - 1.0) == ratio;
      if 1 < |v| {
        var annual := Growth(initial, v, basis, power).value;
        assert Has(m, AnnualizedReturn, annual - 1.0) && 1.0 + (annual - 1.0) == annual;
      }
    }
  }

  /** Trades and risk: the number of sells, the share of them that won, the sum of their results, the
      share of snapshots with holdings, and the drawdown of the snapshots' equities. */
  lemma TradeValues(initial: real, snapshots: seq<Snapshot>, fills: seq<FillEvent>, basis: int, power: Power)
    requires Compute(initial, snapshots, fills, basis, power).Some?
    ensures var m, v := Compute(initial, snapshots, fills, basis, power).value, OnlyValid(snapshots);
      var results, sells := Fifo.Replay(fills).realized, Fifo.SellsAt(fills);
      && Has(m, TradeCount, |sells| as real)
      && (sells == {} ==> Lacks(m, WinRate, ZeroTrades))
      && (sells != {} ==> IsShare(m, WinRate, |WinsAt(results)|, |sells|))
      && Has(m, RealizedPnl, Fifo.Sum(results))
      && (v == [] ==> Lacks(m, ExposureTimeRatio, NoValidPortfolioSnapshots))
      && (v != [] ==> IsShare(m, ExposureTimeRatio, |ExposedAt(v)|, |v|))
      && (v == [] ==> Lacks(m, MaxDrawdown, NoValidPortfolioSnapshots))
      && (v != [] ==> Has(m, MaxDrawdown, Drawdown(seq(|v|, i requires 0 <= i < |v| => v[i].totalEquity))))
  {
    hide Times, Over, Fifo.Replay, Fifo.Sum, Drawdown, EquityMetrics, OnlyValid, Find, IsShare;
    var m, v := Compute(initial, snapshots, fills, basis, power).value, OnlyValid(snapshots);
    var results := Fifo.Replay(fills).realized;
    Fifo.OneResultPerSell(fills);
    WinsCounted(results);
    ExposureCounted(v);
    NineKeys(initial, snapshots, fills, basis, power);
    FourEquityMetrics(initial, v, basis, power);
    MetricsFound(m);
    if results != [] {
      ShareOf(m, WinRate, |WinsAt(results)|, |results|);
    }
    if v != [] {
      ShareOf(m, ExposureTimeRatio, |ExposedAt(v)|, |v|);
      assert Equities(v) == seq(|v|, i requires 0 <= i < |v| => v[i].totalEquity);
    }
  }

  lemma FourEquityMetrics(initial: real, v: seq<Snapshot>, basis: int, power: Power)
    ensures var e := EquityMetrics(initial, v, basis, power); e.Some? ==> |e.value| == 4
  {
    hide Over;
  }

  /** What two of the lookups find: the last equity, and the sum of the FIFO results. */
  lemma FinalAndRealized(initial: real, snapshots: seq<Snapshot>, fills: seq<FillEvent>, basis: int, power: Power)
    requires snapshots != [] && OnlyValid(snapshots) == snapshots
    requires Compute(initial, snapshots, fills, basis, power).Some?
    ensures var m := Compute(initial, snapshots, fills, basis, power).value;
      && ObjectiveOf(m, FinalEquity) == ObjectiveAvailable(Last(snapshots).totalEquity)
      && ObjectiveOf(m, RealizedPnl) == ObjectiveAvailable(Fifo.Sum(Fifo.Replay(fills).realized))
  {
    hide Over, Fifo.Replay, Fifo.Sum, Drawdown, OnlyValid, Find;
    var m := Compute(initial, snapshots, fills, basis, power).value;
    FindAt(m, FinalEquity, 1);
    FindAt(m, RealizedPnl, 7);
  }

  lemma EveryKeyIsListed(key: MetricKey) returns (i: nat)
    ensures i < |KEYS| && KEYS[i] == key
  {
    i := match key
      case InitialEquity => 0
      case FinalEquity => 1
      case TotalReturn => 2
      case AnnualizedReturn => 3
      case MaxDrawdown => 4
      case TradeCount => 5
      case WinRate => 6
      case RealizedPnl => 7
      case ExposureTimeRatio => 8;
  }
}
