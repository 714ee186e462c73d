/** The callback object of the trading run, with the fields its callbacks update in place. */
module Strategy {
  import opened Wrappers
  import opened Domain
  import opened Sequences
  import opened Sizing
  import Engine

  /** The strategy object with the fields its callbacks update. `position`, `inbox` and `nextRef`
      are the library's side of the object; `cursor` is the number of bars delivered so far. */
  class CrossoverStrategy {
    const setup: Engine.Setup
    const bars: seq<Bar>
    var cursor: nat
    var availableCash: real
    var position: int
    var orderContext: map<nat, Engine.OrderContext>
    var inbox: seq<Engine.BrokerOrder>
    var nextRef: nat
    var idsDrawn: nat
    var orderEvents: seq<OrderEvent>
    var fillEvents: seq<FillEvent>
    var positionEvents: seq<PositionEvent>
    var cashEvents: seq<CashEvent>
    var warnings: seq<Warning>
    var failureCode: Option<FailureCode>

    ghost predicate Valid()
      reads this
    {
      ValidParams(setup.params) && cursor <= |bars|
    }

    function View(): Engine.State
      reads this
    {
      Engine.State(availableCash, position, orderContext, inbox, nextRef, idsDrawn,
            orderEvents, fillEvents, positionEvents, cashEvents, warnings)
    }

    constructor (setup: Engine.Setup, bars: seq<Bar>, firstId: nat)
      requires ValidParams(setup.params)
      ensures Valid() && this.setup == setup && this.bars == bars && cursor == 0
      ensures View() == Engine.Start(setup.params, firstId) && failureCode == None
    {
      this.setup, this.bars := setup, bars;
      cursor, availableCash, position, orderContext := 0, setup.params.initialCash, 0, map[];
      inbox, nextRef, idsDrawn := [], 0, firstId;
      orderEvents, fillEvents, positionEvents, cashEvents, warnings := [], [], [], [], [];
      failureCode := None;
    }

    method SubmitEntry(bar: Bar)
      requires Valid()
      modifies this
      ensures Valid() && cursor == old(cursor) && failureCode == old(failureCode)
      ensures View() == Engine.SubmitEntry(setup.params, old(View()), bar)
    {
      if bar.close <= 0.0 {
        return;
      }
      var quantity := OrderQuantity(setup.params, availableCash, bar.close);
      if quantity <= 0 {
        warnings := warnings + [Warning(PositionSizingZeroQuantity, bar.timestamp)];
        return;
      }
      var orderId := DrawId();
      var ref := Place(Buy, quantity);
      orderContext := orderContext[ref := Engine.OrderContext(orderId, Buy, quantity, bar.timestamp)];
    }

    method SubmitExit(bar: Bar)
      requires Valid()
      modifies this
      ensures Valid() && cursor == old(cursor) && failureCode == old(failureCode)
      ensures View() == Engine.Submit(old(View()), Sell, old(position), bar.timestamp)
    {
      var quantity := position;
      var orderId := DrawId();
      var ref := Place(Sell, position);
      orderContext := orderContext[ref := Engine.OrderContext(orderId, Sell, quantity, bar.timestamp)];
    }

    method DrawId() returns (id: nat)
      modifies `idsDrawn
      ensures id == old(idsDrawn) && idsDrawn == id + 1
    {
      id := idsDrawn;
      idsDrawn := idsDrawn + 1;
    }

    method Place(side: Side, size: int) returns (ref: nat)
      modifies `inbox, `nextRef
      ensures ref == old(nextRef) && nextRef == ref + 1 && inbox == old(inbox) + [Engine.BrokerOrder(ref, side, size)]
    {
      ref := nextRef;
      nextRef := nextRef + 1;
      inbox := inbox + [Engine.BrokerOrder(ref, side, size)];
    }

    method Next()
      requires Valid() && 0 < cursor
      modifies this
      ensures Valid() && cursor == old(cursor) && failureCode == old(failureCode)
      ensures View() == Engine.Next(setup, bars[..cursor], old(View()))
    {
      var idx := cursor - 1;
      if idx + 1 < setup.params.eligibleAfterBars {
        return;
      }
      var bar := bars[idx];
      assert bar == Last(bars[..cursor]);
      if position == 0 && Engine.EntrySignal(setup.lines, bars[..cursor]) {
        SubmitEntry(bar);
      } else if position > 0 && Engine.ExitSignal(setup.lines, bars[..cursor]) {
        SubmitExit(bar);
      }
    }

    method NotifyOrder(ref: nat, outcome: Outcome)
      requires Valid() && 0 < cursor
      modifies this
      ensures Valid() && cursor == old(cursor) && failureCode == old(failureCode)
      ensures View() == Engine.NotifyOrder(old(View()), ref, outcome, bars[cursor - 1])
    {
      if ref !in orderContext {
        return;
      }
      if outcome == OrderCompleted {
        HandleFill(ref);
      } else {
        var c := orderContext[ref];
        orderEvents :=
            orderEvents + [OrderEvent(c.orderId, c.side, c.createdAt, c.intendedQuantity, NotFilled(outcome))];
        orderContext := orderContext - {ref};
      }
    }

    method HandleFill(ref: nat)
      requires Valid() && 0 < cursor && ref in orderContext
      modifies this
      ensures Valid() && cursor == old(cursor) && failureCode == old(failureCode)
      ensures View() == Engine.HandleFill(old(View()), ref, bars[cursor - 1])
    {
      var bar := bars[cursor - 1];
      var c := orderContext[ref];
      orderEvents := orderEvents + [OrderEvent(c.orderId, c.side, c.createdAt, c.intendedQuantity, Filled)];

      var cashBefore := availableCash;
      var tradeValue := Value(c.intendedQuantity, bar.open);
      var averageCost, positionQuantity := 0.0, 0;
      if c.side == Buy {
        availableCash := availableCash - tradeValue;
        averageCost, positionQuantity := bar.open, c.intendedQuantity;
      } else {
        availableCash := availableCash + tradeValue;
      }

      fillEvents :=
          fillEvents + [FillEvent(c.orderId, c.side, bar.timestamp, c.intendedQuantity, bar.open, 0.0, 0.0, 0.0)];
      cashEvents := cashEvents + [CashEvent(bar.timestamp, cashBefore, availableCash, c.side)];
      positionEvents := positionEvents + [PositionEvent(bar.timestamp, positionQuantity, averageCost, c.side)];
      if bar.volume == 0 {
        warnings := warnings + [Warning(ZeroVolumeFill, bar.timestamp)];
      }
      orderContext := orderContext - {ref};
    }

    /** The library's part of a bar: take each order off the inbox, settle it at this bar's open
        and report it. */
    method Settle()
      requires Valid() && 0 < cursor
      modifies this
      ensures Valid() && cursor == old(cursor) && failureCode == old(failureCode)
      ensures View() == Engine.Deliver(setup, bars[..cursor], old(View()))
    {
      ghost var seen := bars[..cursor];
      while inbox != []
        invariant Valid() && cursor == old(cursor) && failureCode == old(failureCode) && seen == bars[..cursor]
        invariant Engine.Deliver(setup, seen, View()) == Engine.Deliver(setup, seen, old(View()))
        decreases |inbox|
      {
        var o := inbox[0];
        inbox := inbox[1..];
        var outcome := setup.broker(bars[..cursor], View(), o);
        if outcome == OrderCompleted {
          position := if o.side == Buy then position + o.size else position - o.size;
        }
        NotifyOrder(o.ref, outcome);
      }
    }

    method Stop()
      modifies `failureCode
      ensures failureCode == if orderContext == map[] then old(failureCode) else Some(MissingNextBar)
    {
      if orderContext != map[] {
        failureCode := Some(MissingNextBar);
      }
    }

    /** Feed the bars one by one, then close the run; when the library raises on a bar, report the
        failure alone. */
    static method RunAll(setup: Engine.Setup, bars: seq<Bar>, firstId: nat, fault: Engine.Fault)
      returns (result: ExecutionResult)
      requires ValidParams(setup.params)
      ensures result == Engine.ExecuteGuarded(setup, bars, firstId, fault)
    {
      var strategy := new CrossoverStrategy(setup, bars, firstId);
      while strategy.cursor < |bars|
        invariant strategy.Valid() && fresh(strategy) && strategy.setup == setup && strategy.bars == bars
        invariant strategy.View() == Engine.Run(setup, bars, strategy.cursor, firstId) && strategy.failureCode == None
        invariant fault.Some? ==> strategy.cursor <= fault.value
        decreases |bars| - strategy.cursor
      {
        if fault == Some(strategy.cursor) {
          return Engine.ENGINE_FAILURE;
        }
        strategy.cursor := strategy.cursor + 1;
        strategy.Settle();
        strategy.Next();
      }
      if fault == Some(|bars|) {
        return Engine.ENGINE_FAILURE;
      }
      strategy.Stop();
      result := ExecutionResult(strategy.orderEvents, strategy.fillEvents, strategy.positionEvents, strategy.cashEvents,
                                strategy.warnings,
                                if strategy.failureCode == None then RunCompleted else RunFailed,
                                strategy.failureCode);
    }
  }
}
