/** Valuing the portfolio at every bar's close, from the cash and position events alone. */
module Valuation {
  import opened Domain
  import Exact

  datatype ValuationStatus = Valid | NotAvailable

  datatype Snapshot = Snapshot(sequence: nat, timestamp: int, cash: real, holdingsValue: real, totalEquity: real,
                               status: ValuationStatus)

  function CashTimes(events: seq<CashEvent>): (r: seq<int>)
    ensures |r| == |events|
  {
    seq(|events|, i requires 0 <= i < |events| => events[i].timestamp)
  }

  function PositionTimes(events: seq<PositionEvent>): (r: seq<int>)
    ensures |r| == |events|
  {
    seq(|events|, i requires 0 <= i < |events| => events[i].timestamp)
  }

  /** Move past every next event that is not after `t`. */
  function Advance(times: seq<int>, idx: nat, t: int): (r: nat)
    requires idx <= |times|
    ensures idx <= r <= |times|
    decreases |times| - idx
  {
    if idx < |times| && times[idx] <= t then Advance(times, idx + 1, t) else idx
  }

  /** Where the event pointer stands after `k` bars. */
  function Pointer(times: seq<int>, bars: seq<Bar>, k: nat): (r: nat)
    requires k <= |bars|
    ensures r <= |times|
  {
    if k == 0 then 0 else Advance(times, Pointer(times, bars, k - 1), bars[k - 1].timestamp)
  }

  function CashAfter(events: seq<CashEvent>, n: nat, initial: real): real
    requires n <= |events|
  {
    if n == 0 then initial else events[n - 1].cashAfter
  }

  function QuantityAfter(events: seq<PositionEvent>, n: nat): int
    requires n <= |events|
  {
    if n == 0 then 0 else events[n - 1].quantity
  }

  function ValueAt(sequence: nat, bar: Bar, cash: real, quantity: int): Snapshot {
    var holdings := if quantity == 0 then 0.0 else Value(quantity, bar.close);
    Snapshot(sequence, bar.timestamp, cash, holdings, cash + holdings, Valid)
  }

  function SnapshotAt(bars: seq<Bar>, cashEvents: seq<CashEvent>, positions: seq<PositionEvent>, initial: real,
      k: nat): Snapshot
    requires k < |bars|
  {
    ValueAt(k, bars[k],
            CashAfter(cashEvents, Pointer(CashTimes(cashEvents), bars, k + 1), initial),
            QuantityAfter(positions, Pointer(PositionTimes(positions), bars, k + 1)))
  }

  function Snapshots(bars: seq<Bar>, cashEvents: seq<CashEvent>, positions: seq<PositionEvent>,
      initial: real): (r: seq<Snapshot>)
    ensures |r| == |bars|
  {
    seq(|bars|, k requires 0 <= k < |bars| => SnapshotAt(bars, cashEvents, positions, initial, k))
  }

  /** The two-pointer merge: one pass over the bars, each event applied once. */
  method BuildPortfolioSnapshots(bars: seq<Bar>, cashEvents: seq<CashEvent>, positions: seq<PositionEvent>,
      initialCash: real)
    returns (snapshots: seq<Snapshot>)
    ensures snapshots == Snapshots(bars, cashEvents, positions, initialCash)
  {
    hide Value;
    var cash, quantity := initialCash, 0;
    var cashIdx, positionIdx := 0, 0;
    snapshots := [];
    for k := 0 to |bars|
      invariant cashIdx == Pointer(CashTimes(cashEvents), bars, k)
          && cash == CashAfter(cashEvents, cashIdx, initialCash)
      invariant positionIdx == Pointer(PositionTimes(positions), bars, k)
          && quantity == QuantityAfter(positions, positionIdx)
      invariant |snapshots| == k
      invariant forall j :: 0 <= j < k ==> snapshots[j] == SnapshotAt(bars, cashEvents, positions, initialCash, j)
    {
      var bar := bars[k];
      while cashIdx < |cashEvents| && cashEvents[cashIdx].timestamp <= bar.timestamp
        invariant cashIdx <= |cashEvents| && cash == CashAfter(cashEvents, cashIdx, initialCash)
        invariant Advance(CashTimes(cashEvents), cashIdx, bar.timestamp) == Pointer(CashTimes(cashEvents), bars, k + 1)
      {
        cash := cashEvents[cashIdx].cashAfter;
        cashIdx := cashIdx + 1;
      }
      while positionIdx < |positions| && positions[positionIdx].timestamp <= bar.timestamp
        invariant positionIdx <= |positions| && quantity == QuantityAfter(positions, positionIdx)
        invariant Advance(PositionTimes(positions), positionIdx, bar.timestamp) ==
            Pointer(PositionTimes(positions), bars, k + 1)
      {
        quantity := positions[positionIdx].quantity;
        positionIdx := positionIdx + 1;
      }
      var holdingsValue := if quantity != 0 then Value(quantity, bar.close) else 0.0;
      var totalEquity := cash + holdingsValue;
      snapshots := snapshots + [Snapshot(k, bar.timestamp, cash, holdingsValue, totalEquity, Valid)];
    }
  }

  // ---- What the pointer means ----

  predicate Ordered(times: seq<int>) {
    forall i, j :: 0 <= i < j < |times| ==> times[i] <= times[j]
  }

  /** How many of the times are not after `t`, wherever they stand. */
  function CountUpTo(times: seq<int>, t: int): (n: nat)
    ensures n <= |times|
  {
    if times == [] then 0 else CountUpTo(times[..|times| - 1], t) + if times[|times| - 1] <= t then 1 else 0
  }

  /** `n` splits the times into those not after `t` and those after. */
  predicate Splits(times: seq<int>, t: int, n: nat) {
    n <= |times| && (forall i :: 0 <= i < n ==> times[i] <= t) && (forall i :: n <= i < |times| ==> t < times[i])
  }

  lemma {:induction false} AdvanceSplits(times: seq<int>, idx: nat, t: int)
    requires Ordered(times) && idx <= |times| && (forall i :: 0 <= i < idx ==> times[i] <= t)
    ensures Splits(times, t, Advance(times, idx, t))
    decreases |times| - idx
  {
    if idx < |times| && times[idx] <= t {
      AdvanceSplits(times, idx + 1, t);
    }
  }

  lemma {:induction false} PointerSplits(times: seq<int>, bars: seq<Bar>, k: nat)
    requires Ordered(times) && Chronological(bars) && k < |bars|
    ensures Splits(times, bars[k].timestamp, Pointer(times, bars, k + 1))
  {
    if k > 0 {
      PointerSplits(times, bars, k - 1);
    }
    AdvanceSplits(times, Pointer(times, bars, k), bars[k].timestamp);
  }

  lemma {:induction false} SplitIsCount(times: seq<int>, t: int, n: nat)
    requires Splits(times, t, n)
    ensures n == CountUpTo(times, t)
  {
    if times != [] {
      SplitIsCount(times[..|times| - 1], t, if n == |times| then n - 1 else n);
    }
  }

  /** The merge is right: the snapshot at a bar holds the cash and quantity left by the last of all
      the events that are not after the bar, or the initial ones when there is none. */
  lemma MergeIsLastEvent(bars: seq<Bar>, cashEvents: seq<CashEvent>, positions: seq<PositionEvent>, initial: real,
      k: nat)
    requires Chronological(bars) && k < |bars|
    requires Ordered(CashTimes(cashEvents)) && Ordered(PositionTimes(positions))
    ensures var s, t := Snapshots(bars, cashEvents, positions, initial)[k], bars[k].timestamp;
      var c, p := CountUpTo(CashTimes(cashEvents), t), CountUpTo(PositionTimes(positions), t);
      var quantity := if p == 0 then 0 else positions[p - 1].quantity;
      && s == ValueAt(k, bars[k], CashAfter(cashEvents, c, initial), QuantityAfter(positions, p))
      && s.sequence == k && s.timestamp == t && s.status == Valid
      && s.cash == (if c == 0 then initial else cashEvents[c - 1].cashAfter)
      && s.holdingsValue == Value(quantity, bars[k].close)
      && s.totalEquity == s.cash + s.holdingsValue
  {
    hide Pointer, Exact.Times;
    Exact.TimesZero(bars[k].close);
    PointerSplits(CashTimes(cashEvents), bars, k);
    SplitIsCount(CashTimes(cashEvents), bars[k].timestamp, Pointer(CashTimes(cashEvents), bars, k + 1));
    PointerSplits(PositionTimes(positions), bars, k);
    SplitIsCount(PositionTimes(positions), bars[k].timestamp, Pointer(PositionTimes(positions), bars, k + 1));
  }
}
