/** The engine's cash, the valuation of its events and the FIFO results, three separate
    computations, tell the same story at every bar. */
module Reconciliation {
  import opened Domain
  import opened Exact
  import opened Sequences
  import opened Sizing
  import opened Engine
  import opened Trading
  import opened Valuation
  import opened Metrics
  import Artifact
  import BarStore
  import Fifo

  function FillTimes(fills: seq<FillEvent>): (r: seq<int>)
    ensures |r| == |fills|
  {
    seq(|fills|, i requires 0 <= i < |fills| => fills[i].filledAt)
  }

  /** The fills reported up to time `t`. */
  function FillsUpTo(fills: seq<FillEvent>, t: int): seq<FillEvent> {
    fills[..CountUpTo(FillTimes(fills), t)]
  }

  /** A fill made on a later bar is stamped later. */
  lemma {:induction false} LaterFills(u: Setup, bars: seq<Bar>, k: nat, m: nat, firstId: nat)
    requires ValidParams(u.params) && Chronological(bars) && 1 <= k <= m <= |bars|
    ensures var early, late := Run(u, bars, k, firstId).fills, Run(u, bars, m, firstId).fills;
      |early| <= |late| && forall j :: |early| <= j < |late| ==> bars[k - 1].timestamp < late[j].filledAt
    decreases m
  {
    hide Deliver, Next, Sound, Waiting;
    if k < m {
      LaterFills(u, bars, k, m - 1, firstId);
      RunSound(u, bars, m - 1, firstId);
      var seen, s := bars[..m], Run(u, bars, m - 1, firstId);
      assert Init(seen) == bars[..m - 1];
      OneFillPerBar(u, seen, s);
    }
  }

  lemma OneFillPerBar(u: Setup, seen: seq<Bar>, s: State)
    requires ValidParams(u.params) && seen != []
    requires Settled(s) || Waiting(Init(seen), s)
    ensures var d := OnBar(u, seen, s);
      d.fills == s.fills || (|d.fills| == |s.fills| + 1 && s.fills == Init(d.fills)
          && Last(d.fills).filledAt == Last(seen).timestamp)
  {
    hide Value, OrderQuantity, EntrySignal, ExitSignal;
    if s.inbox != [] {
      DeliverOne(u, seen, s);
      var f := Deliver(u, seen, s).fills;
      assert f == s.fills || Init(f) == s.fills;
    }
  }

  /** The events of the whole run, split at bar `k`, are those of the run up to it. */
  lemma EventsSplit(u: Setup, bars: seq<Bar>, k: nat, firstId: nat)
    requires ValidParams(u.params) && Chronological(bars) && k < |bars|
    ensures var s, t := Run(u, bars, |bars|, firstId), Run(u, bars, k + 1, firstId);
      && Extends(t, s)
      && |s.fills| == |s.cashEvents| == |s.positions| && |t.fills| == |t.cashEvents| == |t.positions|
      && Ordered(FillTimes(s.fills)) && Ordered(CashTimes(s.cashEvents)) && Ordered(PositionTimes(s.positions))
      && Splits(FillTimes(s.fills), bars[k].timestamp, |t.fills|)
      && Splits(CashTimes(s.cashEvents), bars[k].timestamp, |t.fills|)
      && Splits(PositionTimes(s.positions), bars[k].timestamp, |t.fills|)
  {
    hide Run, Sound, Waiting, Settled, Value, FilledOrders;
    var s, t := Run(u, bars, |bars|, firstId), Run(u, bars, k + 1, firstId);
    RunSound(u, bars, |bars|, firstId);
    RunSound(u, bars, k + 1, firstId);
    RecordsGrow(u, bars, k + 1, |bars|, firstId);
    LaterFills(u, bars, k + 1, |bars|, firstId);
    SameTimes(u.params.initialCash, bars[..|bars|], s);
    SameTimes(u.params.initialCash, bars[..k + 1], t);
    FillsNotAfter(u.params.initialCash, bars[..k + 1], t);
    assert forall j :: 0 <= j < |t.fills| ==> s.fills[j] == t.fills[j];
  }

  lemma SameTimes(initial: real, seen: seq<Bar>, s: State)
    requires Sound(initial, seen, s)
    ensures |s.fills| == |s.cashEvents| == |s.positions| && Ordered(FillTimes(s.fills))
    ensures CashTimes(s.cashEvents) == FillTimes(s.fills) == PositionTimes(s.positions)
  {
    hide Value, Balanced;
    var g := JournalOf(s);
    forall j | 0 <= j < |s.fills|
      ensures s.cashEvents[j].timestamp == s.fills[j].filledAt == s.positions[j].timestamp
    {
      assert SameTrade(CashBefore(initial, g.cashEvents, j), g.orders[j], g.fills[j], g.cashEvents[j], g.positions[j]);
    }
  }

  lemma FillsNotAfter(initial: real, seen: seq<Bar>, t: State)
    requires Sound(initial, seen, t) && seen != [] && Chronological(seen)
    ensures forall j :: 0 <= j < |t.fills| ==> t.fills[j].filledAt <= Last(seen).timestamp
  {
    hide Records, Balanced;
    forall j | 0 <= j < |t.fills| ensures t.fills[j].filledAt <= Last(seen).timestamp {
      assert FilledNextBar(seen, JournalOf(t).orders[j], t.fills[j]);
      var i :| NextBarOpen(seen, i, JournalOf(t).orders[j], t.fills[j]);
    }
  }

  /** The snapshot of bar `k`, valued from the events of the whole run, shows the cash and position
      the engine had at that bar. */
  lemma SnapshotIsEngineState(u: Setup, bars: seq<Bar>, k: nat, firstId: nat)
    requires ValidParams(u.params) && Chronological(bars) && k < |bars|
    ensures var r, t := Execute(u, bars, firstId), Run(u, bars, k + 1, firstId);
      Snapshots(bars, r.cashEvents, r.positions, u.params.initialCash)[k] == ValueAt(k, bars[k], t.cash, t.position)
  {
    hide Run, ValueAt, Ordered, Splits, Value, Sound, Waiting, Settled, CountUpTo, CashTimes, PositionTimes, FillTimes;
    var s, t := Run(u, bars, |bars|, firstId), Run(u, bars, k + 1, firstId);
    var initial, n := u.params.initialCash, |t.fills|;
    EventsSplit(u, bars, k, firstId);
    MergeIsLastEvent(bars, s.cashEvents, s.positions, initial, k);
    SplitIsCount(CashTimes(s.cashEvents), bars[k].timestamp, n);
    SplitIsCount(PositionTimes(s.positions), bars[k].timestamp, n);
    RunSound(u, bars, k + 1, firstId);
    PositionsSayQuantity(initial, bars[..k + 1], t);
    assert CashAfter(s.cashEvents, n, initial) == CashBefore(initial, t.cashEvents, n);
  }

  lemma PositionsSayQuantity(initial: real, seen: seq<Bar>, t: State)
    requires Sound(initial, seen, t)
    ensures |t.fills| == |t.cashEvents| == |t.positions|
    ensures t.cash == CashBefore(initial, t.cashEvents, |t.cashEvents|)
    ensures t.position == OpenQuantity(t.fills) == QuantityAfter(t.positions, |t.positions|)
  {
    hide Value, Timed, Fifo.Replay, Fifo.BuyCost, Fifo.SellProceeds, Fifo.SellFees, Fifo.NoOverselling, FilledOrders;
    var n := |t.fills|;
    if n > 0 {
      var g := JournalOf(t);
      assert SameTrade(CashBefore(initial, g.cashEvents, n - 1), g.orders[n - 1], g.fills[n - 1], g.cashEvents[n - 1],
          g.positions[n - 1]);
    }
  }

  /** Equity reconciliation, at every bar of every run: the total equity the artifact reports is the
      initial cash, plus the FIFO results of the fills so far, plus the open quantity's gain since entry. */
  lemma EquityReconciles(u: Setup, bars: seq<Bar>, k: nat, firstId: nat)
    requires ValidParams(u.params) && Chronological(bars) && k < |bars|
    ensures var r := Execute(u, bars, firstId);
      var soFar := FillsUpTo(r.fills, bars[k].timestamp);
      Snapshots(bars, r.cashEvents, r.positions, u.params.initialCash)[k].totalEquity ==
        u.params.initialCash + Fifo.Sum(Fifo.Replay(soFar).realized)
        + Value(OpenQuantity(soFar), bars[k].close - EntryPrice(soFar))
  {
    hide Run, Ordered, Splits, Times, Fifo.Replay, Fifo.Sum, Snapshots, Sound;
    var s, t := Run(u, bars, |bars|, firstId), Run(u, bars, k + 1, firstId);
    SnapshotIsEngineState(u, bars, k, firstId);
    EventsSplit(u, bars, k, firstId);
    SplitIsCount(FillTimes(s.fills), bars[k].timestamp, |t.fills|);
    assert FillsUpTo(s.fills, bars[k].timestamp) == t.fills;
    RunSound(u, bars, k + 1, firstId);
    BalancedEquity(u.params.initialCash, bars[..k + 1], t, bars[k].close);
  }

  /** It holds of whatever the bar store feeds the engine, as long as stored times are unique. */
  lemma StoredBarsReconcile(u: Setup, db: BarStore.Database, datasetId: nat, instrumentId: nat, start: int, end: int,
      k: nat, firstId: nat)
    requires ValidParams(u.params) && BarStore.UniqueTimes(db.bars)
    requires var s := BarStore.GetSnapshot(db, datasetId, instrumentId, start, end); s.Some? && k < |s.value|
    ensures var bars := BarStore.GetSnapshot(db, datasetId, instrumentId, start, end).value;
      var r := Execute(u, bars, firstId);
      var soFar := FillsUpTo(r.fills, bars[k].timestamp);
      Snapshots(bars, r.cashEvents, r.positions, u.params.initialCash)[k].totalEquity ==
        u.params.initialCash + Fifo.Sum(Fifo.Replay(soFar).realized)
        + Value(OpenQuantity(soFar), bars[k].close - EntryPrice(soFar))
  {
    hide Execute, Snapshots, FillsUpTo, Fifo.Replay, Fifo.Sum, Value, OpenQuantity, EntryPrice;
    BarStore.SnapshotInOrder(db, datasetId, instrumentId, start, end);
    EquityReconciles(u, BarStore.GetSnapshot(db, datasetId, instrumentId, start, end).value, k, firstId);
  }

  /** The same, of one engine state at one price. */
  lemma BalancedEquity(initial: real, seen: seq<Bar>, t: State, close: real)
    requires Sound(initial, seen, t)
    ensures t.cash + (if t.position == 0 then 0.0 else Value(t.position, close)) ==
            initial + Fifo.Sum(Fifo.Replay(t.fills).realized)
                + Value(OpenQuantity(t.fills), close - EntryPrice(t.fills))
  {
    hide Times, Records, Timed, Fifo.Replay, Fifo.Sum, Fifo.BuyCost, Fifo.SellProceeds, Fifo.SellFees,
        Fifo.NoOverselling, Fifo.Oversold;
    var q, entry := OpenQuantity(t.fills), EntryPrice(t.fills);
    assert Fifo.NonNegative(t.fills);
    Fifo.Conservation(t.fills);
    NothingOversold(t.fills);
    Fifo.SumShares(q, entry) by { PositionSaysTurn(initial, t); }
    TimesMinus(close, entry, q as real);
    if q == 0 { TimesZero(close); }
  }

  lemma {:induction false} NothingOversold(fills: seq<FillEvent>)
    requires Fifo.NoOverselling(fills) && Fifo.NonNegative(fills)
    ensures Fifo.Oversold(fills) == 0.0
  {
    hide Times;
    if fills != [] {
      NothingOversold(Init(fills));
      TimesZero(Last(fills).price);
    }
  }

  /** A run's recorded metrics add up: what equity gained is what was realized, plus the gain of what
      is still open at the last close; a run that ends flat gained exactly what it realized. */
  lemma MetricsReconcile(u: Setup, bars: seq<Bar>, firstId: nat, basis: int, power: Power)
    requires ValidParams(u.params) && Chronological(bars) && bars != []
    requires Execute(u, bars, firstId).terminalStatus.RunCompleted?
    requires Artifact.Build(Execute(u, bars, firstId), bars, u.params.initialCash, basis, power).Some?
    ensures var r := Execute(u, bars, firstId);
      var m := Artifact.Build(r, bars, u.params.initialCash, basis, power).value.metrics;
      && ObjectiveOf(m, FinalEquity).ObjectiveAvailable? && ObjectiveOf(m, RealizedPnl).ObjectiveAvailable?
      && ObjectiveOf(m, FinalEquity).value - u.params.initialCash ==
           ObjectiveOf(m, RealizedPnl).value + Value(OpenQuantity(r.fills), Last(bars).close - EntryPrice(r.fills))
      && (OpenQuantity(r.fills) == 0 ==>
            ObjectiveOf(m, FinalEquity).value - u.params.initialCash == ObjectiveOf(m, RealizedPnl).value)
  {
    hide Run, Times, Fifo.Replay, Fifo.Sum, Compute, ObjectiveOf, SnapshotAt;
    var r, initial, n := Execute(u, bars, firstId), u.params.initialCash, |bars|;
    var snapshots := Snapshots(bars, r.cashEvents, r.positions, initial);
    assert snapshots[n - 1].totalEquity == initial + Fifo.Sum(Fifo.Replay(r.fills).realized)
                                           + Value(OpenQuantity(r.fills), bars[n - 1].close - EntryPrice(r.fills)) by {
      EquityReconciles(u, bars, n - 1, firstId);
      EventsSplit(u, bars, n - 1, firstId);
      SplitIsCount(FillTimes(r.fills), bars[n - 1].timestamp, |r.fills|);
      assert FillsUpTo(r.fills, bars[n - 1].timestamp) == r.fills;
    }
    Artifact.AllSnapshotsValid(bars, r.cashEvents, r.positions, initial);
    FinalAndRealized(initial, snapshots, r.fills, basis, power);
    TimesZero(Last(bars).close - EntryPrice(r.fills));
  }

  /** With a broker that checks cash, no equity is ever negative, so the drawdown of a run is the
      worst fall between any two of its bars and lies between -1 and 0. */
  lemma SolventDrawdown(u: Setup, bars: seq<Bar>, firstId: nat)
    requires ValidParams(u.params) && Chronological(bars) && ChecksCash(u.broker)
    requires forall i :: 0 <= i < |bars| ==> ValidBar(bars[i])
    ensures var r := Execute(u, bars, firstId);
      var e := Equities(Snapshots(bars, r.cashEvents, r.positions, u.params.initialCash));
      && (forall k :: 0 <= k < |e| ==> 0.0 <= e[k])
      && -1.0 <= Drawdown(e) <= 0.0 && BelowEveryFall(e, Drawdown(e)) && (Drawdown(e) == 0.0 || Reached(e, Drawdown(e)))
  {
    hide Execute, Drawdown, BelowEveryFall, Reached, ChecksCash, Snapshots;
    var r := Execute(u, bars, firstId);
    var snapshots := Snapshots(bars, r.cashEvents, r.positions, u.params.initialCash);
    forall k | 0 <= k < |bars|
      ensures 0.0 <= snapshots[k].totalEquity
    {
      EquityNonNegative(u, bars, k, firstId);
    }
    DrawdownIsWorstFall(Equities(snapshots));
  }

  lemma EquityNonNegative(u: Setup, bars: seq<Bar>, k: nat, firstId: nat)
    requires ValidParams(u.params) && Chronological(bars) && ChecksCash(u.broker) && k < |bars|
    requires forall i :: 0 <= i < |bars| ==> ValidBar(bars[i])
    ensures var r := Execute(u, bars, firstId);
      0.0 <= Snapshots(bars, r.cashEvents, r.positions, u.params.initialCash)[k].totalEquity
  {
    hide Execute, Run, ChecksCash, Snapshots, Records, Timed, Settled, Waiting, Value;
    var t := Run(u, bars, k + 1, firstId);
    SnapshotIsEngineState(u, bars, k, firstId);
    Solvent(u, bars, k + 1, firstId);
    RunSound(u, bars, k + 1, firstId);
    PositionSaysTurn(u.params.initialCash, t);
    ValueNonNegative(t.position, bars[k].close);
  }
}
