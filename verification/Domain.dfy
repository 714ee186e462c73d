/** The records that flow between the engine and the artifact: bars and execution events.
    Money and prices are exact (`real`); timestamps are integers on one time axis; an identifier
    is the position of its draw from the id factory. */
module Domain {
  import opened Exact
  import opened Wrappers

  datatype Bar = Bar(timestamp: int, open: real, high: real, low: real, close: real, volume: int)

  /** The numeric guards of the `NormalizedBar` constructor. */
  predicate ValidBar(b: Bar) {
    && 0.0 < b.open && 0.0 < b.high && 0.0 < b.low && 0.0 < b.close
    && b.low <= b.open <= b.high
    && b.low <= b.close <= b.high
    && 0 <= b.volume
  }

  predicate Chronological(bars: seq<Bar>) {
    forall i, j :: 0 <= i < j < |bars| ==> bars[i].timestamp < bars[j].timestamp
  }

  datatype Side = Buy | Sell

  datatype OrderStatus = Filled | NotFilled(reason: Outcome)

  /** How the broker resolves a submitted order. */
  datatype Outcome = OrderCompleted | OrderCanceled | OrderMargin | OrderRejected

  datatype OrderEvent = OrderEvent(orderId: nat, side: Side, createdAt: int, intendedQuantity: int, status: OrderStatus)

  datatype FillEvent = FillEvent(orderId: nat, side: Side, filledAt: int, quantity: int, price: real,
                                 commission: real, tax: real, slippage: real)

  datatype PositionEvent = PositionEvent(timestamp: int, quantity: int, averageCost: real, reason: Side)

  datatype CashEvent = CashEvent(timestamp: int, cashBefore: real, cashAfter: real, reason: Side)

  datatype WarningCode = PositionSizingZeroQuantity | ZeroVolumeFill

  datatype Warning = Warning(code: WarningCode, timestamp: int)

  datatype FailureCode = MissingNextBar | EngineError

  datatype TerminalStatus = RunCompleted | RunFailed

  datatype ExecutionResult = ExecutionResult(
    orders: seq<OrderEvent>, fills: seq<FillEvent>, positions: seq<PositionEvent>, cashEvents: seq<CashEvent>,
    warnings: seq<Warning>, terminalStatus: TerminalStatus, failureCode: Option<FailureCode>)

  /** `quantity` shares at `price`. */
  function Value(quantity: int, price: real): real {
    Times(quantity as real, price)
  }
}
