/** What whole runs make of the signals: every fill follows from a signal of the bar before it, every
    order leaves one event under its own id, and every warning has its cause. */
module Signals {
  import opened Wrappers
  import opened Domain
  import opened Sequences
  import opened Sizing
  import opened Engine
  import opened Trading

  // ---- Fills follow signals ----

  /** After `k` bars, past the warm-up, the lines asked for an order of this side. */
  predicate SignalledAt(u: Setup, seen: seq<Bar>, k: nat, side: Side)
    requires k <= |seen|
  {
    && u.params.eligibleAfterBars <= k
    && (side.Buy? ==> forall i :: 0 <= i < |u.lines| ==> u.lines[i].entry(seen[..k]))
    && (side.Sell? ==> exists i :: 0 <= i < |u.lines| && u.lines[i].exit(seen[..k]))
  }

  /** The fill happened at bar `k`, on the lines' signal at the close of the bar before. */
  predicate FollowsSignal(u: Setup, seen: seq<Bar>, k: nat, f: FillEvent) {
    && k < |seen| && f.filledAt == seen[k].timestamp && f.price == seen[k].open
    && SignalledAt(u, seen, k, f.side)
  }

  ghost predicate HasSignal(u: Setup, seen: seq<Bar>, f: FillEvent) {
    exists k: nat :: FollowsSignal(u, seen, k, f)
  }

  /** In every run, a buy is filled only on the bar after one on which every line signalled entry, and
      a sell only on the bar after one on which some line signalled exit, neither within the warm-up. */
  lemma {:induction false} FillsFollowSignals(u: Setup, bars: seq<Bar>, k: nat, firstId: nat)
    requires ValidParams(u.params) && k <= |bars| && Chronological(bars)
    ensures var s := Run(u, bars, k, firstId);
      && (forall j :: 0 <= j < |s.fills| ==> HasSignal(u, bars[..k], s.fills[j]))
      && (s.inbox != [] ==> SignalledAt(u, bars[..k], k, s.inbox[0].side))
  {
    hide Sound, Next, Deliver, OrderQuantity, HandleFill, Value;
    if k > 0 {
      FillsFollowSignals(u, bars, k - 1, firstId);
      RunSound(u, bars, k - 1, firstId);
      var seen, s := bars[..k], Run(u, bars, k - 1, firstId);
      assert Init(seen) == bars[..k - 1];
      var d := Deliver(u, seen, s);
      if s.inbox != [] {
        DeliverOne(u, seen, s);
      } else {
        SettledDelivers(u, seen, s);
      }
      SignalsDecide(u, seen, d);
      assert Next(u, seen, d).fills == d.fills;
      assert seen[..k] == seen;
      forall j | 0 <= j < |d.fills|
        ensures HasSignal(u, seen, d.fills[j])
      {
        if j < |s.fills| {
          var i: nat :| FollowsSignal(u, Init(seen), i, s.fills[j]);
          assert Init(seen)[..i] == seen[..i];
          assert FollowsSignal(u, seen, i, d.fills[j]);
        } else {
          assert Init(seen)[..k - 1] == seen[..k - 1];
          assert FollowsSignal(u, seen, k - 1, d.fills[j]);
        }
      }
    }
  }

  lemma SettledDelivers(u: Setup, seen: seq<Bar>, s: State)
    requires seen != [] && s.inbox == []
    ensures Deliver(u, seen, s) == s
  {}

  // ---- One event per order ----

  /** Ids are drawn one per order, in the order of submission: each order that is no longer waiting
      has left exactly one event, under its id, and the waiting order has the last id drawn. */
  lemma {:induction false} OneEventPerOrder(u: Setup, bars: seq<Bar>, k: nat, firstId: nat)
    requires ValidParams(u.params) && k <= |bars| && Chronological(bars)
    ensures var s := Run(u, bars, k, firstId);
      && s.idsDrawn == firstId + |s.orders| + |s.inbox|
      && (forall j :: 0 <= j < |s.orders| ==> s.orders[j].orderId == firstId + j)
      && (forall ref :: ref in s.context ==> s.context[ref].orderId == s.idsDrawn - 1)
  {
    hide Sound, Next, Deliver, OrderQuantity, HandleFill, Value;
    if k > 0 {
      OneEventPerOrder(u, bars, k - 1, firstId);
      RunSound(u, bars, k - 1, firstId);
      var seen, s := bars[..k], Run(u, bars, k - 1, firstId);
      assert Init(seen) == bars[..k - 1];
      if s.inbox != [] {
        DeliverOne(u, seen, s);
      } else {
        SettledDelivers(u, seen, s);
      }
      SignalsDecide(u, seen, Deliver(u, seen, s));
    }
  }

  /** When the library raises after some number of bars there are, the result is the bare failure, and
      the ids drawn are those of the orders submitted by then; otherwise both are the run's. */
  lemma GuardedReports(u: Setup, bars: seq<Bar>, firstId: nat, fault: Fault)
    requires ValidParams(u.params) && Chronological(bars)
    ensures var r, raised := ExecuteGuarded(u, bars, firstId, fault), fault.Some? && fault.value <= |bars|;
      && (raised ==>
            && r.orders == [] && r.fills == [] && r.positions == [] && r.cashEvents == [] && r.warnings == []
            && r.terminalStatus == RunFailed && r.failureCode == Some(EngineError))
      && (!raised ==> r == Execute(u, bars, firstId))
      && var s := Run(u, bars, if raised then fault.value else |bars|, firstId);
         IdsDrawn(u, bars, firstId, fault) == firstId + |s.orders| + |s.inbox|
  {
    hide Run, Execute;
    OneEventPerOrder(u, bars, if Raises(bars, fault) then fault.value else |bars|, firstId);
  }

  // ---- Warnings ----

  /** The order waiting from the bar before is executed on this bar. */
  predicate Executes(u: Setup, seen: seq<Bar>, s: State) {
    s.inbox != [] && u.broker(seen, s.(inbox := []), s.inbox[0]).OrderCompleted?
  }

  /** A bar warns of a fill without volume exactly when it fills an order and nothing was traded on it,
      and of an entry too small to order exactly when entry is wanted and sizing leaves nothing. */
  lemma BarWarnings(u: Setup, bars: seq<Bar>, k: nat, firstId: nat)
    requires ValidParams(u.params) && 0 < k <= |bars| && Chronological(bars)
    ensures var seen, s := bars[..k], Run(u, bars, k - 1, firstId);
      var bar, d := Last(seen), Deliver(u, seen, s);
      Run(u, bars, k, firstId).warnings == s.warnings
        + (if Executes(u, seen, s) && bar.volume == 0 then [Warning(ZeroVolumeFill, bar.timestamp)] else [])
        + (if WantsEntry(u, seen, d) && OrderQuantity(u.params, d.cash, bar.close) <= 0 then
             [Warning(PositionSizingZeroQuantity, bar.timestamp)]
           else [])
    ensures Run(u, bars, 0, firstId).warnings == []
  {
    hide Sound, Next, Deliver, OrderQuantity, HandleFill, Value;
    RunSound(u, bars, k - 1, firstId);
    var seen, s := bars[..k], Run(u, bars, k - 1, firstId);
    assert Init(seen) == bars[..k - 1];
    if s.inbox != [] {
      DeliverOne(u, seen, s);
    } else {
      SettledDelivers(u, seen, s);
    }
    SignalsDecide(u, seen, Deliver(u, seen, s));
  }
}
